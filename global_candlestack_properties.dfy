/**
 * `GlobalCandlestackProperties`: the process-wide properties installed once by `init`, and the
 * typed getters whose lookup rules the Java doc comments spell out. The static field becomes
 * the `Global` object; each getter reads the installed properties, `None` standing for "not
 * initialised".
 */
module GlobalCandlestackProperties {
  import opened Wrappers
  import opened JavaString

  /** A `java.util.Properties`: each key to its value. */
  type Properties = map<string, string>

  /** The holder of the static `globalProps` field. */
  class Global {
    var globalProps: Option<Properties>

    constructor()
      ensures globalProps.None?
    {
      globalProps := None;
    }

    /** `init(props)`: only the first non-null properties are kept. */
    method Init(props: Option<Properties>)
      modifies this
      ensures old(globalProps).None? ==> globalProps == props
      ensures old(globalProps).Some? ==> globalProps == old(globalProps)
    {
      if globalProps.None? && props.Some? {
        globalProps := props;
      }
    }
  }

  /** `initCheck()`: fails until properties are installed. */
  function InitCheck(g: Option<Properties>): (r: Result<Properties>)
    ensures r.Ok? <==> g.Some?
    ensures r.Ok? ==> r.value == g.value
  {
    if g.None? then Err(PropertiesException("GlobalCandlestackProperties")) else Ok(g.value)
  }

  /** `globalProps.getProperty(key)`: null for a missing key. */
  function GetProperty(p: Properties, key: string): Option<string> {
    if key in p then Some(p[key]) else None
  }

  /** The shared body of `getIntProperty` and `getLongProperty`, with the parser as a parameter. */
  function GetNumber(g: Option<Properties>, key: string, defaultVal: Option<int>,
                     parse: string -> Option<int>): Result<int>
  {
    match InitCheck(g)
    case Err(e) => Err(e)
    case Ok(p) =>
      var valStr := GetProperty(p, key);
      if valStr.None? && defaultVal.None? then Err(PropertiesException(key))
      else if valStr.None? then Ok(defaultVal.value)
      else match parse(valStr.value)
        case Some(v) => Ok(v)
        case None => if defaultVal.None? then Err(PropertiesException(key)) else Ok(defaultVal.value)
  }

  /**
   * `getIntProperty(key, defaultVal)`, by the five documented rules: (1) missing key and no
   * default fails; (2) missing key with a default gives the default; (3) text that is not an
   * int fails when there is no default, (4) gives the default otherwise; (5) an int value wins
   * over any default.
   */
  function GetIntProperty(g: Option<Properties>, key: string, defaultVal: Option<int>): (r: Result<int>)
    ensures g.None? ==> r.Err?
    ensures g.Some? && key !in g.value && defaultVal.None? ==> r.Err?
    ensures g.Some? && key !in g.value && defaultVal.Some? ==> r == Ok(defaultVal.value)
    ensures g.Some? && key in g.value && ParseInt(g.value[key]).None? ==>
      r == (if defaultVal.None? then Err(PropertiesException(key)) else Ok(defaultVal.value))
    ensures g.Some? && key in g.value && ParseInt(g.value[key]).Some? ==> r == Ok(ParseInt(g.value[key]).value)
    ensures r.Ok? ==> INT_MIN <= r.value <= INT_MAX || (defaultVal.Some? && r.value == defaultVal.value)
  {
    GetNumber(g, key, defaultVal, ParseInt)
  }

  /** `getLongProperty(key, defaultVal)`: the same five rules with the range of a long. */
  function GetLongProperty(g: Option<Properties>, key: string, defaultVal: Option<int>): (r: Result<int>)
    ensures g.None? ==> r.Err?
    ensures g.Some? && key !in g.value && defaultVal.None? ==> r.Err?
    ensures g.Some? && key !in g.value && defaultVal.Some? ==> r == Ok(defaultVal.value)
    ensures g.Some? && key in g.value && ParseLong(g.value[key]).None? ==>
      r == (if defaultVal.None? then Err(PropertiesException(key)) else Ok(defaultVal.value))
    ensures g.Some? && key in g.value && ParseLong(g.value[key]).Some? ==> r == Ok(ParseLong(g.value[key]).value)
    ensures r.Ok? ==> LONG_MIN <= r.value <= LONG_MAX || (defaultVal.Some? && r.value == defaultVal.value)
  {
    GetNumber(g, key, defaultVal, ParseLong)
  }

  /** A number stored as its decimal text reads back as itself, whatever the default. */
  lemma IntPropertyReadsBack(p: Properties, key: string, n: int, defaultVal: Option<int>)
    requires INT_MIN <= n <= INT_MAX
    ensures GetIntProperty(Some(p[key := IntToString(n)]), key, defaultVal) == Ok(n)
  {
    ParseIntegerOfIntToString(n, INT_MIN, INT_MAX);
  }

  lemma LongPropertyReadsBack(p: Properties, key: string, n: int, defaultVal: Option<int>)
    requires LONG_MIN <= n <= LONG_MAX
    ensures GetLongProperty(Some(p[key := IntToString(n)]), key, defaultVal) == Ok(n)
  {
    ParseIntegerOfIntToString(n, LONG_MIN, LONG_MAX);
  }

  /** A value one past the int range is not an int: the default is used, or the lookup fails. */
  lemma IntPropertyOutOfRange(p: Properties, key: string, defaultVal: Option<int>)
    ensures GetIntProperty(Some(p[key := IntToString(INT_MAX + 1)]), key, defaultVal)
         == (if defaultVal.None? then Err(PropertiesException(key)) else Ok(defaultVal.value))
  {
    var s := IntToString(INT_MAX + 1);
    ParseIntegerOfIntToString(INT_MAX + 1, INT_MIN, INT_MAX + 1);
    assert ParseInteger(s, INT_MIN, INT_MAX).None?;
  }

  /**
   * The value is not trimmed before parsing: a value with a leading or trailing blank (" 5",
   * "5 ") is not an int, so the default applies.
   */
  lemma IntPropertyNotTrimmed(p: Properties, key: string, v: string, defaultVal: Option<int>)
    requires |v| > 0 && (v[0] == ' ' || v[|v| - 1] == ' ')
    ensures GetIntProperty(Some(p[key := v]), key, defaultVal)
         == (if defaultVal.None? then Err(PropertiesException(key)) else Ok(defaultVal.value))
  {
    var digits := if v[0] == '-' || v[0] == '+' then v[1..] else v;
    if |digits| > 0 {
      if v[0] == ' ' {
        assert !IsDigit(digits[0]);
      } else {
        assert !IsDigit(digits[|digits| - 1]);
      }
    }
  }

  /**
   * `getBooleanProperty(key, defaultVal)`: a recognised boolean word wins over the default; a
   * missing or unrecognised value gives the default, or fails when there is none.
   */
  function GetBooleanProperty(g: Option<Properties>, key: string, defaultVal: Option<bool>): (r: Result<bool>)
    ensures g.None? ==> r.Err?
    ensures g.Some? && ToBooleanObject(GetProperty(g.value, key)).Some? ==>
      r == Ok(ToBooleanObject(GetProperty(g.value, key)).value)
    ensures g.Some? && ToBooleanObject(GetProperty(g.value, key)).None? ==>
      r == (if defaultVal.None? then Err(PropertiesException(key)) else Ok(defaultVal.value))
  {
    match InitCheck(g)
    case Err(e) => Err(e)
    case Ok(p) =>
      var val := ToBooleanObject(GetProperty(p, key));
      if val.None? && defaultVal.None? then Err(PropertiesException(key))
      else if val.None? then Ok(defaultVal.value)
      else Ok(val.value)
  }

  /** The words are recognised in any letter case: "Yes" and "ON" are true, "No" and "OFF" false. */
  lemma BooleanWords(p: Properties, key: string, defaultVal: Option<bool>)
    ensures GetBooleanProperty(Some(p[key := "Yes"]), key, defaultVal) == Ok(true)
    ensures GetBooleanProperty(Some(p[key := "ON"]), key, defaultVal) == Ok(true)
    ensures GetBooleanProperty(Some(p[key := "No"]), key, defaultVal) == Ok(false)
    ensures GetBooleanProperty(Some(p[key := "OFF"]), key, defaultVal) == Ok(false)
    ensures GetBooleanProperty(Some(p[key := "1"]), key, Some(false)) == Ok(false)
  {
    assert ToLower("Yes") == "yes";
    assert ToLower("ON") == "on";
    assert ToLower("No") == "no";
    assert ToLower("OFF") == "off";
    assert ToLower("1") == "1";
  }

  /**
   * `getStringProperty(key, defaultVal)`: the raw value, untrimmed; the default for a missing
   * key; a failure when both are missing.
   */
  function GetStringProperty(g: Option<Properties>, key: string, defaultVal: Option<string>): (r: Result<string>)
    ensures g.None? ==> r.Err?
    ensures g.Some? && key in g.value ==> r == Ok(g.value[key])
    ensures g.Some? && key !in g.value ==>
      r == (if defaultVal.None? then Err(PropertiesException(key)) else Ok(defaultVal.value))
  {
    match InitCheck(g)
    case Err(e) => Err(e)
    case Ok(p) =>
      var val := GetProperty(p, key);
      if val.None? && defaultVal.None? then Err(PropertiesException(key))
      else if val.None? then Ok(defaultVal.value)
      else Ok(val.value)
  }

  /**
   * `getStringProperty(key)`: the trimmed value, which is never blank and is its own trim; a
   * missing or blank value fails.
   */
  function GetRequiredStringProperty(g: Option<Properties>, key: string): (r: Result<string>)
    ensures r.Ok? <==> g.Some? && key in g.value && Trim(g.value[key]) != ""
    ensures r.Ok? ==> r.value == Trim(g.value[key]) && r.value != "" && Trim(r.value) == r.value
  {
    match GetStringProperty(g, key, None)
    case Err(e) => Err(e)
    case Ok(v) =>
      TrimIdempotent(v);
      var val := Trim(v);
      if val == "" then Err(PropertiesException(key)) else Ok(val)
  }

  /**
   * `getSetProperty(key, allowEmpty)`: the whole value is trimmed; an empty value fails unless
   * empty values are allowed, when it gives the empty set; otherwise the set of the ','-pieces,
   * each untrimmed, trailing empty pieces dropped.
   */
  function GetSetProperty(g: Option<Properties>, key: string, allowEmpty: bool): (r: Result<StringSet>)
    ensures r.Ok? <==> g.Some? && key in g.value && (allowEmpty || Trim(g.value[key]) != "")
    ensures g.Some? && key in g.value && Trim(g.value[key]) == "" ==>
      if allowEmpty then r.Ok? && r.value == [] else r == Err(PropertiesException(key))
    ensures r.Ok? && Trim(g.value[key]) != "" ==>
      forall x :: x in r.value <==> x in Split(Trim(g.value[key]), ",")
  {
    match GetStringProperty(g, key, None)
    case Err(e) => Err(e)
    case Ok(v) =>
      var optionsStr := Trim(v);
      if !allowEmpty && optionsStr == "" then Err(PropertiesException(key))
      else if optionsStr == "" then Ok(EmptySet())
      else Ok(ToSet(Split(optionsStr, ",")))
  }

  function EmptySet(): (r: StringSet)
    ensures r == []
  {
    []
  }

  /** A missing key fails in every case, allowed empty or not. */
  lemma SetPropertyMissingFails(p: Properties, key: string, allowEmpty: bool)
    requires key !in p
    ensures GetSetProperty(Some(p), key, allowEmpty).Err?
  {
  }

  /** "," trims to itself and splits into nothing, so it gives the empty set. */
  lemma CommaOnlyIsEmpty(p: Properties, key: string, allowEmpty: bool)
    ensures GetSetProperty(Some(p[key := ","]), key, allowEmpty).Ok?
    ensures GetSetProperty(Some(p[key := ","]), key, allowEmpty).value == []
  {
    CommaTrimmed();
    CommaSplitsToNothing();
  }

  lemma CommaTrimmed()
    ensures Trim(",") == ","
  {
    TrimLeadingKeeps(",");
    TrimTrailingKeeps(",");
  }

  lemma CommaSplitsToNothing()
    ensures Split(",", ",") == []
  {
    OccursAtChar(",", ',', 0);
    assert IndexOf(",", ",", 0) == 0;
    assert ","[1..] == "";
    assert Pieces("", ",") == [""];
    assert Pieces(",", ",") == ["", ""];
  }
}
