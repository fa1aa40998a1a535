/** `RDSType`: the database engines that are monitored, read from an engine name. */
module RDSType {
  import opened Wrappers
  import opened JavaString

  datatype RDSType = UNSUPPORTED | AURORA | AURORA_MYSQL | MARIADB

  /** `values()`, in declaration order. */
  const VALUES: seq<RDSType> := [UNSUPPORTED, AURORA, AURORA_MYSQL, MARIADB]

  /** `name()`. */
  function Name(t: RDSType): string {
    match t
    case UNSUPPORTED => "UNSUPPORTED"
    case AURORA => "AURORA"
    case AURORA_MYSQL => "AURORA_MYSQL"
    case MARIADB => "MARIADB"
  }

  /** The engine as it is compared: trimmed, with every '-' turned into '_'. */
  function CleanEngine(rdsEngine: string): string {
    ReplaceChar(Trim(rdsEngine), '-', '_')
  }

  /** The first of `types` whose name equals `clean` ignoring case, or `UNSUPPORTED`. */
  function FirstNamed(types: seq<RDSType>, clean: string): RDSType {
    if |types| == 0 then UNSUPPORTED
    else if EqualsIgnoreCase(Name(types[0]), clean) then types[0]
    else FirstNamed(types[1..], clean)
  }

  /** What `getTypeFromEngine(rdsEngine)` returns; a null engine is `UNSUPPORTED`. */
  function TypeFromEngine(rdsEngine: Option<string>): RDSType {
    if rdsEngine.None? then UNSUPPORTED else FirstNamed(VALUES, CleanEngine(rdsEngine.value))
  }

  /** `getTypeFromEngine(rdsEngine)`: the loop over `values()` that stops at the first match. */
  method GetTypeFromEngine(rdsEngine: Option<string>) returns (result: RDSType)
    ensures result == TypeFromEngine(rdsEngine)
  {
    result := UNSUPPORTED;
    if rdsEngine.Some? {
      var cleanRDSEngine := ReplaceChar(Trim(rdsEngine.value), '-', '_');
      var i := 0;
      while i < |VALUES|
        invariant 0 <= i <= |VALUES|
        invariant result == UNSUPPORTED
        invariant FirstNamed(VALUES, cleanRDSEngine) == FirstNamed(VALUES[i..], cleanRDSEngine)
      {
        if EqualsIgnoreCase(Name(VALUES[i]), cleanRDSEngine) {
          result := VALUES[i];
          break;
        }
        assert VALUES[i..][1..] == VALUES[i + 1..];
        i := i + 1;
      }
    }
  }

  /** The engine name with its case and its dashes folded away. */
  function Folded(rdsEngine: string): string {
    ToLower(ReplaceChar(Trim(rdsEngine), '-', '_'))
  }

  /** The names in lower case. */
  function LowerName(t: RDSType): string {
    match t
    case UNSUPPORTED => "unsupported"
    case AURORA => "aurora"
    case AURORA_MYSQL => "aurora_mysql"
    case MARIADB => "mariadb"
  }

  lemma LowerNameIsLower(t: RDSType)
    ensures ToLower(Name(t)) == LowerName(t)
  {
    match t
    case UNSUPPORTED => assert ToLower("UNSUPPORTED") == "unsupported";
    case AURORA => assert ToLower("AURORA") == "aurora";
    case AURORA_MYSQL => assert ToLower("AURORA_MYSQL") == "aurora_mysql";
    case MARIADB => assert ToLower("MARIADB") == "mariadb";
  }

  /** The loop unrolled: the type whose lower-case name is the folded engine, else `UNSUPPORTED`. */
  lemma TypeOfFolded(rdsEngine: string)
    ensures var f := Folded(rdsEngine);
            TypeFromEngine(Some(rdsEngine))
            == if f == "aurora" then AURORA else if f == "aurora_mysql" then AURORA_MYSQL
               else if f == "mariadb" then MARIADB else UNSUPPORTED
  {
    var clean := CleanEngine(rdsEngine);
    forall t | true
      ensures EqualsIgnoreCase(Name(t), clean) <==> LowerName(t) == Folded(rdsEngine)
    {
      LowerNameIsLower(t);
    }
    var v := VALUES;
    assert v[1..] == [AURORA, AURORA_MYSQL, MARIADB];
    assert v[1..][1..] == [AURORA_MYSQL, MARIADB];
    assert v[1..][1..][1..] == [MARIADB];
    assert v[1..][1..][1..][1..] == [];
    var f := Folded(rdsEngine);
    assert FirstNamed([MARIADB], clean) == if f == "mariadb" then MARIADB else UNSUPPORTED;
    assert FirstNamed([AURORA_MYSQL, MARIADB], clean)
        == if f == "aurora_mysql" then AURORA_MYSQL else FirstNamed([MARIADB], clean);
    assert FirstNamed([AURORA, AURORA_MYSQL, MARIADB], clean)
        == if f == "aurora" then AURORA else FirstNamed([AURORA_MYSQL, MARIADB], clean);
  }

  /**
   * A supported type is returned exactly when its name is the engine, up to case, surrounding
   * blanks and '-' for '_'.
   */
  lemma TypeNamesEngine(rdsEngine: string, t: RDSType)
    requires t != UNSUPPORTED
    ensures TypeFromEngine(Some(rdsEngine)) == t <==> ToLower(Name(t)) == Folded(rdsEngine)
  {
    TypeOfFolded(rdsEngine);
    LowerNameIsLower(t);
    assert "aurora" != "aurora_mysql" && "aurora" != "mariadb" && "aurora_mysql" != "mariadb";
  }

  /** Only the folded engine name matters: letter case and '-' versus '_' never change the type. */
  lemma FoldedEnginesAgree(e1: string, e2: string)
    requires Folded(e1) == Folded(e2)
    ensures TypeFromEngine(Some(e1)) == TypeFromEngine(Some(e2))
  {
    TypeOfFolded(e1);
    TypeOfFolded(e2);
  }

  /** "aurora-mysql" is AURORA_MYSQL. */
  lemma AuroraMysqlEngine()
    ensures TypeFromEngine(Some("aurora-mysql")) == AURORA_MYSQL
  {
    TypeOfFolded("aurora-mysql");
    AuroraMysqlFolds();
  }

  lemma AuroraMysqlFolds()
    ensures Folded("aurora-mysql") == "aurora_mysql"
  {
    var e := "aurora-mysql";
    TrimLeadingKeeps(e);
    TrimTrailingKeeps(e);
    assert Trim(e) == e;
    var u := ReplaceChar(e, '-', '_');
    assert u == "aurora_mysql";
    assert ToLower(u) == u;
  }

  /** A null engine, and an engine no supported type is named after, give `UNSUPPORTED`. */
  lemma UnknownIsUnsupported(rdsEngine: Option<string>)
    requires rdsEngine.Some? ==> forall t :: t != UNSUPPORTED ==> ToLower(Name(t)) != Folded(rdsEngine.value)
    ensures TypeFromEngine(rdsEngine) == UNSUPPORTED
  {
    if rdsEngine.Some? {
      TypeOfFolded(rdsEngine.value);
      LowerNameIsLower(AURORA);
      LowerNameIsLower(AURORA_MYSQL);
      LowerNameIsLower(MARIADB);
    }
  }
}
