/**
 * The Nagios Core object-definition text that every `getObjectDefinitions` emits:
 * `define <kind>{\n`, one `\t<key>\t<value>\n` line per field in a fixed order, then `}\n\n`.
 * Reading the text back (ParseAll) recovers the definitions exactly, as long as no key holds
 * a tab, no value a newline and no kind a '{'.
 */
module ObjectFormat {
  import opened Wrappers
  import opened JavaString

  datatype Field = Field(key: string, value: string)

  datatype Definition = Definition(kind: string, fields: seq<Field>)

  /** One field line: a tab, the key, a tab, the value, a newline. */
  function Line(f: Field): string {
    "\t" + f.key + "\t" + f.value + "\n"
  }

  function FieldLines(fields: seq<Field>): string {
    if |fields| == 0 then "" else Line(fields[0]) + FieldLines(fields[1..])
  }

  lemma FieldLinesOfTwo(a: Field, b: Field)
    ensures FieldLines([a, b]) == Line(a) + Line(b)
  {
    assert [a, b][1..] == [b];
    assert FieldLines([b]) == Line(b) + FieldLines([]);
  }

  function Render(d: Definition): string {
    "define " + d.kind + "{\n" + FieldLines(d.fields) + "}\n\n"
  }

  /** Definitions written one after another, as the configuration files hold them. */
  function RenderAll(ds: seq<Definition>): string {
    if |ds| == 0 then "" else Render(ds[0]) + RenderAll(ds[1..])
  }

  /** The fields with the given keys and values, pairwise. */
  function Zip(keys: seq<string>, values: seq<string>): (fields: seq<Field>)
    requires |keys| == |values|
    ensures |fields| == |keys|
    ensures forall i :: 0 <= i < |keys| ==> fields[i].key == keys[i] && fields[i].value == values[i]
  {
    seq(|keys|, i requires 0 <= i < |keys| => Field(keys[i], values[i]))
  }

  /** How a boolean field is written. */
  function Flag(b: bool): string { if b then "1" else "0" }

  predicate PlainField(f: Field) { '\t' !in f.key && '\n' !in f.value }

  predicate Plain(d: Definition) {
    '{' !in d.kind && forall i :: 0 <= i < |d.fields| ==> PlainField(d.fields[i])
  }

  predicate NoTab(keys: seq<string>) { forall i :: 0 <= i < |keys| ==> '\t' !in keys[i] }

  predicate NoNewline(values: seq<string>) { forall i :: 0 <= i < |values| ==> '\n' !in values[i] }

  lemma PlainZip(kind: string, keys: seq<string>, values: seq<string>)
    requires |keys| == |values| && '{' !in kind && NoTab(keys) && NoNewline(values)
    ensures Plain(Definition(kind, Zip(keys, values)))
  {
  }

  /** Two runs of plain fields make a plain definition. */
  lemma PlainConcat(kind: string, a: seq<Field>, b: seq<Field>)
    requires '{' !in kind
    requires forall i :: 0 <= i < |a| ==> PlainField(a[i])
    requires forall i :: 0 <= i < |b| ==> PlainField(b[i])
    ensures Plain(Definition(kind, a + b))
  {
    forall i | 0 <= i < |a + b| ensures PlainField((a + b)[i]) {
      if i >= |a| {
        assert (a + b)[i] == b[i - |a|];
      }
    }
  }

  predicate AllPlain(ds: seq<Definition>) {
    forall i :: 0 <= i < |ds| ==> Plain(ds[i])
  }

  /** Every definition opens with "define <kind>{" and a newline and closes with "}" and a blank line. */
  lemma RenderFrame(d: Definition)
    ensures StartsWith(Render(d), "define " + d.kind + "{\n")
    ensures EndsWith(Render(d), "}\n\n")
  {
    var head := "define " + d.kind + "{\n";
    var r := Render(d);
    assert r == head + (FieldLines(d.fields) + "}\n\n");
    assert r[..|head|] == head;
    assert r[|r| - 3..] == "}\n\n";
  }

  // ---------------------------------------------------------------- reading back

  function ParseFields(s: string): (r: Option<(seq<Field>, string)>)
    ensures r.Some? ==> |r.value.1| + 3 <= |s|
    decreases |s|
  {
    if StartsWith(s, "}\n\n") then Some(([], s[3..]))
    else if |s| > 0 && s[0] == '\t' then
      var t := s[1..];
      var k := IndexOf(t, "\t", 0);
      if k < 0 then None
      else
        var u := t[k + 1..];
        var v := IndexOf(u, "\n", 0);
        if v < 0 then None
        else match ParseFields(u[v + 1..])
          case None => None
          case Some((fs, rest)) => Some(([Field(t[..k], u[..v])] + fs, rest))
    else None
  }

  function ParseDefinition(s: string): (r: Option<(Definition, string)>)
    ensures r.Some? ==> |r.value.1| < |s|
  {
    if !StartsWith(s, "define ") then None
    else
      var t := s[7..];
      var k := IndexOf(t, "{", 0);
      if k < 0 || !StartsWith(t[k + 1..], "\n") then None
      else match ParseFields(t[k + 2..])
        case None => None
        case Some((fs, rest)) => Some((Definition(t[..k], fs), rest))
  }

  function ParseAll(s: string): Option<seq<Definition>>
    decreases |s|
  {
    if s == "" then Some([])
    else match ParseDefinition(s)
      case None => None
      case Some((d, rest)) =>
        match ParseAll(rest)
        case None => None
        case Some(ds) => Some([d] + ds)
  }

  lemma ParseFieldLine(key: string, value: string, tail: string)
    requires '\t' !in key && '\n' !in value
    ensures ParseFields("\t" + key + "\t" + value + "\n" + tail) ==
      match ParseFields(tail)
      case None => None
      case Some((fs, rest)) => Some(([Field(key, value)] + fs, rest))
  {
    var s := "\t" + key + "\t" + value + "\n" + tail;
    assert s[0] == '\t';
    assert !StartsWith(s, "}\n\n") by { assert s[0] != '}'; }
    var t := s[1..];
    assert t == key + ['\t'] + (value + "\n" + tail);
    IndexOfCharIsFirst(key, '\t', value + "\n" + tail);
    var u := t[|key| + 1..];
    assert u == value + ['\n'] + tail;
    IndexOfCharIsFirst(value, '\n', tail);
    assert t[..|key|] == key;
    assert u[..|value|] == value;
    assert u[|value| + 1..] == tail;
  }

  lemma {:induction false} ParseFieldsOfLines(fs: seq<Field>, rest: string)
    requires forall i :: 0 <= i < |fs| ==> PlainField(fs[i])
    ensures ParseFields(FieldLines(fs) + "}\n\n" + rest) == Some((fs, rest))
  {
    if |fs| == 0 {
      var s := "}\n\n" + rest;
      assert s[..3] == "}\n\n";
      assert s[3..] == rest;
    } else {
      var f := fs[0];
      assert PlainField(f);
      var tail := FieldLines(fs[1..]) + "}\n\n" + rest;
      assert FieldLines(fs) + "}\n\n" + rest == "\t" + f.key + "\t" + f.value + "\n" + tail;
      ParseFieldLine(f.key, f.value, tail);
      ParseFieldsOfLines(fs[1..], rest);
      assert [Field(f.key, f.value)] + fs[1..] == fs;
    }
  }

  lemma ParseDefinitionOfRender(d: Definition, rest: string)
    requires Plain(d)
    ensures ParseDefinition(Render(d) + rest) == Some((d, rest))
  {
    var s := Render(d) + rest;
    var body := FieldLines(d.fields) + "}\n\n" + rest;
    assert s == "define " + d.kind + "{\n" + body;
    assert s[..7] == "define ";
    var t := s[7..];
    assert t == d.kind + ['{'] + ("\n" + body);
    IndexOfCharIsFirst(d.kind, '{', "\n" + body);
    var k := |d.kind|;
    assert t[k + 1..] == "\n" + body;
    assert t[k + 2..] == body;
    assert t[..k] == d.kind;
    ParseFieldsOfLines(d.fields, rest);
  }

  /** Every sequence of plain definitions reads back as itself. */
  lemma {:induction false} ParseAllOfRenderAll(ds: seq<Definition>)
    requires AllPlain(ds)
    ensures ParseAll(RenderAll(ds)) == Some(ds)
  {
    if |ds| > 0 {
      var rest := RenderAll(ds[1..]);
      var s := RenderAll(ds);
      assert s == Render(ds[0]) + rest;
      assert |Render(ds[0])| > 0;
      assert Plain(ds[0]);
      ParseDefinitionOfRender(ds[0], rest);
      assert AllPlain(ds[1..]) by {
        forall i | 0 <= i < |ds| - 1 ensures Plain(ds[1..][i]) {
          assert ds[1..][i] == ds[i + 1];
        }
      }
      ParseAllOfRenderAll(ds[1..]);
      assert [ds[0]] + ds[1..] == ds;
    }
  }

  /** One plain definition reads back as itself. */
  lemma ReadBackOne(d: Definition)
    requires Plain(d)
    ensures ParseAll(Render(d)) == Some([d])
  {
    assert [d][1..] == [];
    assert RenderAll([d]) == Render(d);
    assert AllPlain([d]);
    ParseAllOfRenderAll([d]);
  }

  lemma {:induction false} FieldLinesAppend(fields: seq<Field>, f: Field)
    ensures FieldLines(fields + [f]) == FieldLines(fields) + Line(f)
  {
    if |fields| > 0 {
      assert (fields + [f])[1..] == fields[1..] + [f];
      FieldLinesAppend(fields[1..], f);
    } else {
      assert fields + [f] == [f];
      assert FieldLines([f]) == Line(f) + FieldLines([]);
    }
  }

  /** The text written so far, followed by one more line, is the text of one more field. */
  lemma AppendLine(prefix: string, written: seq<Field>, f: Field)
    ensures prefix + FieldLines(written) + Line(f) == prefix + FieldLines(written + [f])
  {
    FieldLinesAppend(written, f);
  }

  lemma {:induction false} RenderAllAppend(a: seq<Definition>, b: seq<Definition>)
    ensures RenderAll(a + b) == RenderAll(a) + RenderAll(b)
  {
    if |a| > 0 {
      assert (a + b)[1..] == a[1..] + b;
      RenderAllAppend(a[1..], b);
    } else {
      assert a + b == b;
    }
  }
}
