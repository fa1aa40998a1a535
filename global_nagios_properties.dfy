/**
 * `GlobalNagiosProperties`: the Nagios objects configured through properties. Names are
 * discovered from the property keys (`nagios.contact.<name>.<field>`,
 * `nagios.contactgroup.<name>.<field>`, `nagios.command.<name>`), then each object is read
 * field by field. Key enumeration order is unspecified, so the discovery loop picks keys in any
 * order.
 */
module GlobalNagiosProperties {
  import opened Wrappers
  import opened JavaString
  import opened GlobalCandlestackProperties
  import C = Contact
  import CG = ContactGroup
  import Cmd = Command
  import ObjectFormat

  // ---------------------------------------------------------------- names from keys

  /** The key starts with the prefix, and not with the exclude prefix when there is one. */
  predicate Selected(propName: string, prefix: string, exclude: string) {
    StartsWith(propName, prefix) && (exclude == "" || !StartsWith(propName, exclude))
  }

  /** The text after the prefix, up to the next '.' when there is one after it. */
  function NameOf(propName: string, prefix: string): string
    requires StartsWith(propName, prefix)
  {
    var trailingPeriodIndex := IndexOf(propName, ".", |prefix|);
    if trailingPeriodIndex > 0 then propName[|prefix|..trailingPeriodIndex] else propName[|prefix|..]
  }

  /** `x` is the name some selected key yields. */
  predicate IsName(p: Properties, prefix: string, exclude: string, x: string) {
    exists k :: k in p && Selected(k, prefix, exclude) && NameOf(k, prefix) == x
  }

  /** `names` lists each name the selected keys yield, once each. */
  ghost predicate NameList(p: Properties, prefix: string, exclude: string, names: seq<string>) {
    NoDuplicates(names) && forall x :: x in names <==> IsName(p, prefix, exclude, x)
  }

  /**
   * `getNames(prefix, exclude)`: the set of names of the selected keys, each once. The keys are
   * visited in an unspecified order.
   */
  method GetNames(p: Properties, prefix: string, exclude: string) returns (names: StringSet)
    ensures NameList(p, prefix, exclude, names)
  {
    names := [];
    var remaining := p.Keys;
    while remaining != {}
      invariant remaining <= p.Keys
      invariant forall x :: x in names <==>
        exists k :: k in p && k !in remaining && Selected(k, prefix, exclude) && NameOf(k, prefix) == x
      decreases remaining
    {
      var propName :| propName in remaining;
      if Selected(propName, prefix, exclude) {
        names := Add(names, NameOf(propName, prefix));
      }
      remaining := remaining - {propName};
    }
  }

  /** With a non-empty prefix, an extracted name never holds a '.'. */
  lemma NameHasNoDot(propName: string, prefix: string)
    requires |prefix| > 0 && StartsWith(propName, prefix)
    ensures '.' !in NameOf(propName, prefix)
  {
    var t := IndexOf(propName, ".", |prefix|);
    var name := NameOf(propName, prefix);
    forall i | 0 <= i < |name| ensures name[i] != '.' {
      OccursAtChar(propName, '.', |prefix| + i);
    }
  }

  /** A key made of the prefix, a name without '.', and a suffix that is empty or starts with '.' yields the name. */
  lemma NameOfKey(prefix: string, name: string, suffix: string)
    requires |prefix| > 0 && '.' !in name
    requires suffix == "" || suffix[0] == '.'
    ensures StartsWith(prefix + name + suffix, prefix)
    ensures NameOf(prefix + name + suffix, prefix) == name
  {
    var key := prefix + name + suffix;
    assert key[..|prefix|] == prefix;
    if suffix == "" {
      assert key == prefix + name;
      IndexOfCharAbsentAfter(prefix, name, '.');
      assert key[|prefix|..] == name;
    } else {
      assert key == prefix + name + ['.'] + suffix[1..];
      IndexOfCharAfter(prefix, name, '.', suffix[1..]);
      assert key[|prefix|..|prefix| + |name|] == name;
    }
  }

  // ---------------------------------------------------------------- contacts

  const CONTACT_PROPERTY_KEY_PREFIX: string := "nagios.contact."
  const CONTACT_DEFAULT_PROPERTY_KEY_PREFIX: string := "nagios.contact.default"
  const CONTACT_DEFAULT_NAME: string := "default"

  const HOST_NOTIFICATIONS_ENABLED: string := ".host.notifications.enabled"
  const HOST_NOTIFICATION_OPTIONS: string := ".host.notification.options"
  const HOST_NOTIFICATION_COMMANDS: string := ".host.notification.commands"
  const HOST_NOTIFICATION_PERIOD: string := ".host.notification.period"
  const SERVICE_NOTIFICATIONS_ENABLED: string := ".service.notifications.enabled"
  const SERVICE_NOTIFICATION_OPTIONS: string := ".service.notification.options"
  const SERVICE_NOTIFICATION_COMMANDS: string := ".service.notification.commands"
  const SERVICE_NOTIFICATION_PERIOD: string := ".service.notification.period"
  const ALIAS: string := ".alias"
  const EMAIL: string := ".email"

  function ContactKey(contactName: string, suffix: string): string {
    CONTACT_PROPERTY_KEY_PREFIX + contactName + suffix
  }

  /**
   * Contact discovery excludes every key starting "nagios.contact.default", so a contact whose
   * name merely begins with "default" (say "defaultops") is never found, whatever its fields.
   */
  lemma DefaultPrefixedNamesDropped(contactName: string, suffix: string)
    requires StartsWith(contactName, CONTACT_DEFAULT_NAME)
    ensures !Selected(ContactKey(contactName, suffix), CONTACT_PROPERTY_KEY_PREFIX, CONTACT_DEFAULT_PROPERTY_KEY_PREFIX)
  {
    var key := ContactKey(contactName, suffix);
    assert CONTACT_DEFAULT_PROPERTY_KEY_PREFIX == CONTACT_PROPERTY_KEY_PREFIX + CONTACT_DEFAULT_NAME;
    assert key[..|CONTACT_DEFAULT_PROPERTY_KEY_PREFIX|] == CONTACT_PROPERTY_KEY_PREFIX + contactName[..|CONTACT_DEFAULT_NAME|];
  }

  /** The options text, split on ',' and each piece lower-cased, names only known constants. */
  predicate AllKnown<T>(optionsStr: string, valueOf: string -> Option<T>) {
    var pieces := Split(optionsStr, ",");
    forall k :: 0 <= k < |pieces| ==> valueOf(ToLower(pieces[k])).Some?
  }

  /**
   * `options` is what parsing `optionsStr` gives: a non-blank text whose every piece names a
   * constant, and the set of those constants.
   */
  ghost predicate ParsedOptions<T(!new)>(optionsStr: string, valueOf: string -> Option<T>, options: seq<T>) {
    var pieces := Split(optionsStr, ",");
    && optionsStr != ""
    && AllKnown(optionsStr, valueOf)
    && NoDuplicates(options)
    && forall o :: o in options <==> exists k :: 0 <= k < |pieces| && valueOf(ToLower(pieces[k])) == Some(o)
  }

  /**
   * The loop shared by `getContactHostNotificationOptions` and
   * `getContactServiceNotificationOptions`, given the trimmed value: a blank value fails, each
   * ','-piece is lower-cased (not trimmed) and looked up with `valueOf`; an unknown piece throws
   * `IllegalArgumentException` from `valueOf` itself, so the source's null check never fires.
   */
  method ParseOptions<T(==,!new)>(propertyKey: string, optionsStr: string, valueOf: string -> Option<T>)
    returns (r: Result<seq<T>>)
    ensures optionsStr == "" ==> r == Err(PropertiesException(propertyKey))
    ensures r.Ok? <==> optionsStr != "" && AllKnown(optionsStr, valueOf)
    ensures r.Ok? ==> ParsedOptions(optionsStr, valueOf, r.value)
    ensures r.Err? && optionsStr != "" ==> r.error.IllegalArgument?
  {
    if optionsStr == "" {
      return Err(PropertiesException(propertyKey));
    }
    r := CollectOptions(Split(optionsStr, ","), valueOf);
  }

  /** The loop over the pieces: each looked up in turn, the first unknown one aborting the parse. */
  method CollectOptions<T(==,!new)>(pieces: seq<string>, valueOf: string -> Option<T>) returns (r: Result<seq<T>>)
    ensures r.Ok? <==> forall k :: 0 <= k < |pieces| ==> valueOf(ToLower(pieces[k])).Some?
    ensures r.Ok? ==> NoDuplicates(r.value)
    ensures r.Ok? ==> forall o :: o in r.value <==> exists k :: 0 <= k < |pieces| && valueOf(ToLower(pieces[k])) == Some(o)
    ensures r.Err? ==> r.error.IllegalArgument?
  {
    var options: seq<T> := [];
    var i := 0;
    while i < |pieces|
      invariant 0 <= i <= |pieces|
      invariant NoDuplicates(options)
      invariant forall k :: 0 <= k < i ==> valueOf(ToLower(pieces[k])).Some?
      invariant forall o :: o in options <==> exists k :: 0 <= k < i && valueOf(ToLower(pieces[k])) == Some(o)
    {
      var option := valueOf(ToLower(pieces[i]));
      if option.None? {
        return Err(IllegalArgument(ToLower(pieces[i])));
      }
      FoundStep(pieces, valueOf, options, i);
      if option.value !in options {
        options := options + [option.value];
      }
      i := i + 1;
    }
    r := Ok(options);
  }

  /** One more known piece: the options found so far, with its constant added if new. */
  lemma FoundStep<T>(pieces: seq<string>, valueOf: string -> Option<T>, options: seq<T>, i: int)
    requires 0 <= i < |pieces| && valueOf(ToLower(pieces[i])).Some?
    requires forall o :: o in options <==> exists k :: 0 <= k < i && valueOf(ToLower(pieces[k])) == Some(o)
    ensures var o' := valueOf(ToLower(pieces[i])).value;
      forall o :: (o in options || o == o') <==> exists k :: 0 <= k < i + 1 && valueOf(ToLower(pieces[k])) == Some(o)
  {
  }

  /** `getContactHostNotificationOptions(contactName)` */
  method GetContactHostNotificationOptions(g: Option<Properties>, contactName: string)
    returns (r: Result<seq<C.HostNotificationOption>>)
    ensures r.Ok? <==> g.Some? && ContactKey(contactName, HOST_NOTIFICATION_OPTIONS) in g.value
                       && Trim(g.value[ContactKey(contactName, HOST_NOTIFICATION_OPTIONS)]) != ""
                       && AllKnown(Trim(g.value[ContactKey(contactName, HOST_NOTIFICATION_OPTIONS)]), C.HostOptionValueOf)
    ensures r.Ok? ==> ParsedOptions(Trim(g.value[ContactKey(contactName, HOST_NOTIFICATION_OPTIONS)]), C.HostOptionValueOf, r.value)
  {
    var propertyKey := ContactKey(contactName, HOST_NOTIFICATION_OPTIONS);
    var value :- GetStringProperty(g, propertyKey, None);
    r := ParseOptions(propertyKey, Trim(value), C.HostOptionValueOf);
  }

  /** `getContactServiceNotificationOptions(contactName)` */
  method GetContactServiceNotificationOptions(g: Option<Properties>, contactName: string)
    returns (r: Result<seq<C.ServiceNotificationOption>>)
    ensures r.Ok? <==> g.Some? && ContactKey(contactName, SERVICE_NOTIFICATION_OPTIONS) in g.value
                       && Trim(g.value[ContactKey(contactName, SERVICE_NOTIFICATION_OPTIONS)]) != ""
                       && AllKnown(Trim(g.value[ContactKey(contactName, SERVICE_NOTIFICATION_OPTIONS)]), C.ServiceOptionValueOf)
    ensures r.Ok? ==> ParsedOptions(Trim(g.value[ContactKey(contactName, SERVICE_NOTIFICATION_OPTIONS)]), C.ServiceOptionValueOf, r.value)
  {
    var propertyKey := ContactKey(contactName, SERVICE_NOTIFICATION_OPTIONS);
    var value :- GetStringProperty(g, propertyKey, None);
    r := ParseOptions(propertyKey, Trim(value), C.ServiceOptionValueOf);
  }

  /** Pieces are lower-cased: "D,u" parses. */
  lemma OptionPiecesLowerCased()
    ensures AllKnown("D,u", C.HostOptionValueOf)
  {
    OccursAtChar("D,u", ',', 1);
    assert IndexOf("D,u", ",", 0) == 1;
    assert "D,u"[2..] == "u" && "D,u"[..1] == "D";
    IndexOfCharAbsent("u", ',');
    assert Pieces("u", ",") == ["u"];
    assert Pieces("D,u", ",") == ["D", "u"];
    assert Split("D,u", ",") == ["D", "u"];
    assert ToLower("D") == "d";
  }

  /**
   * Pieces are not trimmed: a text with a piece that starts with a blank names no list of
   * options, host or service.
   */
  lemma PaddedPieceRejected(optionsStr: string, k: nat)
    requires k < |Split(optionsStr, ",")| && |Split(optionsStr, ",")[k]| > 0 && Split(optionsStr, ",")[k][0] == ' '
    ensures !AllKnown(optionsStr, C.HostOptionValueOf) && !AllKnown(optionsStr, C.ServiceOptionValueOf)
  {
    var lower := ToLower(Split(optionsStr, ",")[k]);
    assert lower[0] == ' ';
    OptionNamesAreLetters();
  }

  /** Every option name is a single lower-case letter. */
  lemma OptionNamesAreLetters()
    ensures forall h :: |C.HostOptionName(h)| == 1 && 'a' <= C.HostOptionName(h)[0] <= 'z'
    ensures forall o :: |C.ServiceOptionName(o)| == 1 && 'a' <= C.ServiceOptionName(o)[0] <= 'z'
  {
  }

  /** For instance "d, u" does not parse (" u" is no option). */
  lemma OptionPiecesNotTrimmed()
    ensures !AllKnown("d, u", C.HostOptionValueOf)
  {
    OccursAtChar("d, u", ',', 1);
    assert IndexOf("d, u", ",", 0) == 1;
    assert "d, u"[2..] == " u" && "d, u"[..1] == "d";
    IndexOfCharAbsent(" u", ',');
    assert Pieces(" u", ",") == [" u"];
    assert Pieces("d, u", ",") == ["d", " u"];
    assert Split("d, u", ",") == ["d", " u"];
    PaddedPieceRejected("d, u", 1);
  }

  /** Where a field's value comes from: the contact's own key when present, else the default contact's. */
  function Source(p: Properties, contactName: string, suffix: string): string {
    if ContactKey(contactName, suffix) in p then ContactKey(contactName, suffix)
    else ContactKey(CONTACT_DEFAULT_NAME, suffix)
  }

  /** Every default key a new builder reads. */
  predicate DefaultsPresent(p: Properties) {
    && ContactKey(CONTACT_DEFAULT_NAME, HOST_NOTIFICATIONS_ENABLED) in p
    && ContactKey(CONTACT_DEFAULT_NAME, SERVICE_NOTIFICATIONS_ENABLED) in p
    && ContactKey(CONTACT_DEFAULT_NAME, HOST_NOTIFICATION_PERIOD) in p
    && ContactKey(CONTACT_DEFAULT_NAME, SERVICE_NOTIFICATION_PERIOD) in p
    && ContactKey(CONTACT_DEFAULT_NAME, HOST_NOTIFICATION_COMMANDS) in p
    && ContactKey(CONTACT_DEFAULT_NAME, SERVICE_NOTIFICATION_COMMANDS) in p
    && ContactKey(CONTACT_DEFAULT_NAME, HOST_NOTIFICATION_OPTIONS) in p
    && ContactKey(CONTACT_DEFAULT_NAME, SERVICE_NOTIFICATION_OPTIONS) in p
  }

  /** The key holds a boolean word, and it means `enabled`. */
  predicate EnabledFrom(p: Properties, key: string, enabled: bool) {
    key in p && ToBooleanObject(Some(p[key])) == Some(enabled)
  }

  /** The key is present and its value is not blank. */
  predicate NonBlank(p: Properties, key: string) {
    key in p && Trim(p[key]) != ""
  }

  /** The key's value is not blank, and `value` is its trim. */
  predicate RequiredFrom(p: Properties, key: string, value: string) {
    NonBlank(p, key) && value == Trim(p[key])
  }

  /** The key's value is not blank, and `elements` are the ','-pieces of its trim. */
  ghost predicate SetFrom(p: Properties, key: string, elements: StringSet) {
    NonBlank(p, key) && forall x :: x in elements <==> x in Split(Trim(p[key]), ",")
  }

  /** The key holds a boolean word: `getBooleanProperty(key, null)` returns. */
  predicate EnabledReadable(p: Properties, key: string) {
    key in p && ToBooleanObject(Some(p[key])).Some?
  }

  /** The key's trimmed value is not blank and each of its ','-pieces names an option. */
  predicate OptionsReadable<T>(p: Properties, key: string, valueOf: string -> Option<T>) {
    NonBlank(p, key) && AllKnown(Trim(p[key]), valueOf)
  }

  /** Every `nagios.contact.default.*` setting reads: `new ContactBuilder(...)` returns. */
  predicate DefaultsReadable(p: Properties) {
    && EnabledReadable(p, DefaultKey(HOST_NOTIFICATIONS_ENABLED))
    && EnabledReadable(p, DefaultKey(SERVICE_NOTIFICATIONS_ENABLED))
    && NonBlank(p, DefaultKey(HOST_NOTIFICATION_PERIOD))
    && NonBlank(p, DefaultKey(SERVICE_NOTIFICATION_PERIOD))
    && NonBlank(p, DefaultKey(HOST_NOTIFICATION_COMMANDS))
    && NonBlank(p, DefaultKey(SERVICE_NOTIFICATION_COMMANDS))
    && OptionsReadable(p, DefaultKey(HOST_NOTIFICATION_OPTIONS), C.HostOptionValueOf)
    && OptionsReadable(p, DefaultKey(SERVICE_NOTIFICATION_OPTIONS), C.ServiceOptionValueOf)
  }

  /**
   * The four host `if (containsKey(..))` blocks of `getContactByName`: each is skipped or its
   * getter returns.
   */
  predicate HostOverridesReadable(p: Properties, contactName: string) {
    && (ContactKey(contactName, HOST_NOTIFICATIONS_ENABLED) in p ==> EnabledReadable(p, ContactKey(contactName, HOST_NOTIFICATIONS_ENABLED)))
    && (ContactKey(contactName, HOST_NOTIFICATION_OPTIONS) in p ==>
          OptionsReadable(p, ContactKey(contactName, HOST_NOTIFICATION_OPTIONS), C.HostOptionValueOf))
    && (ContactKey(contactName, HOST_NOTIFICATION_COMMANDS) in p ==> NonBlank(p, ContactKey(contactName, HOST_NOTIFICATION_COMMANDS)))
    && (ContactKey(contactName, HOST_NOTIFICATION_PERIOD) in p ==> NonBlank(p, ContactKey(contactName, HOST_NOTIFICATION_PERIOD)))
  }

  /** The four service blocks, likewise. */
  predicate ServiceOverridesReadable(p: Properties, contactName: string) {
    && (ContactKey(contactName, SERVICE_NOTIFICATIONS_ENABLED) in p ==> EnabledReadable(p, ContactKey(contactName, SERVICE_NOTIFICATIONS_ENABLED)))
    && (ContactKey(contactName, SERVICE_NOTIFICATION_OPTIONS) in p ==>
          OptionsReadable(p, ContactKey(contactName, SERVICE_NOTIFICATION_OPTIONS), C.ServiceOptionValueOf))
    && (ContactKey(contactName, SERVICE_NOTIFICATION_COMMANDS) in p ==> NonBlank(p, ContactKey(contactName, SERVICE_NOTIFICATION_COMMANDS)))
    && (ContactKey(contactName, SERVICE_NOTIFICATION_PERIOD) in p ==> NonBlank(p, ContactKey(contactName, SERVICE_NOTIFICATION_PERIOD)))
  }

  /** `getContactByName(contactName)` returns: the email is present, the defaults and every override read. */
  predicate ContactReadable(p: Properties, contactName: string) {
    && ContactKey(contactName, EMAIL) in p && DefaultsReadable(p)
    && HostOverridesReadable(p, contactName) && ServiceOverridesReadable(p, contactName)
  }

  ghost predicate HostOptionsFrom(p: Properties, key: string, options: seq<C.HostNotificationOption>) {
    key in p && ParsedOptions(Trim(p[key]), C.HostOptionValueOf, options)
  }

  ghost predicate ServiceOptionsFrom(p: Properties, key: string, options: seq<C.ServiceNotificationOption>) {
    key in p && ParsedOptions(Trim(p[key]), C.ServiceOptionValueOf, options)
  }

  /** Each of the eight settings is what the properties say under its source key for the contact. */
  ghost predicate SettingsFrom(p: Properties, contactName: string, d: C.Defaults) {
    && EnabledFrom(p, Source(p, contactName, HOST_NOTIFICATIONS_ENABLED), d.hostNotificationsEnabled)
    && EnabledFrom(p, Source(p, contactName, SERVICE_NOTIFICATIONS_ENABLED), d.serviceNotificationsEnabled)
    && RequiredFrom(p, Source(p, contactName, HOST_NOTIFICATION_PERIOD), d.hostNotificationPeriod)
    && RequiredFrom(p, Source(p, contactName, SERVICE_NOTIFICATION_PERIOD), d.serviceNotificationPeriod)
    && SetFrom(p, Source(p, contactName, HOST_NOTIFICATION_COMMANDS), d.hostNotificationCommands)
    && SetFrom(p, Source(p, contactName, SERVICE_NOTIFICATION_COMMANDS), d.serviceNotificationCommands)
    && HostOptionsFrom(p, Source(p, contactName, HOST_NOTIFICATION_OPTIONS), d.hostNotificationOptions)
    && ServiceOptionsFrom(p, Source(p, contactName, SERVICE_NOTIFICATION_OPTIONS), d.serviceNotificationOptions)
  }

  /** The default contact's key for each setting. */
  function DefaultKey(suffix: string): string {
    ContactKey(CONTACT_DEFAULT_NAME, suffix)
  }

  /**
   * The contact `getContactByName(contactName)` stands for: the name, the alias (default ""),
   * the required email, and each setting from the contact's own key when present, else from the
   * default contact's key.
   */
  ghost predicate ContactFields(p: Properties, contactName: string, c: C.Contact) {
    && c.name == contactName
    && c.alias == (if ContactKey(contactName, ALIAS) in p then p[ContactKey(contactName, ALIAS)] else "")
    && ContactKey(contactName, EMAIL) in p && c.email == p[ContactKey(contactName, EMAIL)]
    && EnabledFrom(p, Source(p, contactName, HOST_NOTIFICATIONS_ENABLED), c.hostNotificationsEnabled)
    && EnabledFrom(p, Source(p, contactName, SERVICE_NOTIFICATIONS_ENABLED), c.serviceNotificationsEnabled)
    && RequiredFrom(p, Source(p, contactName, HOST_NOTIFICATION_PERIOD), c.hostNotificationPeriod)
    && RequiredFrom(p, Source(p, contactName, SERVICE_NOTIFICATION_PERIOD), c.serviceNotificationPeriod)
    && SetFrom(p, Source(p, contactName, HOST_NOTIFICATION_COMMANDS), c.hostNotificationCommands)
    && SetFrom(p, Source(p, contactName, SERVICE_NOTIFICATION_COMMANDS), c.serviceNotificationCommands)
    && HostOptionsFrom(p, Source(p, contactName, HOST_NOTIFICATION_OPTIONS), c.hostNotificationOptions)
    && ServiceOptionsFrom(p, Source(p, contactName, SERVICE_NOTIFICATION_OPTIONS), c.serviceNotificationOptions)
  }

  /** One setting read through its key: `getBooleanProperty(key, null)`. */
  method ReadEnabled(g: Option<Properties>, key: string) returns (r: Result<bool>)
    ensures r.Ok? <==> g.Some? && EnabledReadable(g.value, key)
    ensures r.Ok? ==> g.Some? && EnabledFrom(g.value, key, r.value)
  {
    r := GetBooleanProperty(g, key, None);
  }

  /** One setting read through its key: `getStringProperty(key)`. */
  method ReadPeriod(g: Option<Properties>, key: string) returns (r: Result<string>)
    ensures r.Ok? <==> g.Some? && NonBlank(g.value, key)
    ensures r.Ok? ==> g.Some? && RequiredFrom(g.value, key, r.value)
  {
    r := GetRequiredStringProperty(g, key);
  }

  /** One setting read through its key: `getSetProperty(key)`. */
  method ReadCommands(g: Option<Properties>, key: string) returns (r: Result<StringSet>)
    ensures r.Ok? <==> g.Some? && NonBlank(g.value, key)
    ensures r.Ok? ==> g.Some? && SetFrom(g.value, key, r.value)
  {
    r := GetSetProperty(g, key, false);
  }

  method ReadHostOptions(g: Option<Properties>, contactName: string) returns (r: Result<seq<C.HostNotificationOption>>)
    ensures r.Ok? <==> g.Some? && OptionsReadable(g.value, ContactKey(contactName, HOST_NOTIFICATION_OPTIONS), C.HostOptionValueOf)
    ensures r.Ok? ==> g.Some? && HostOptionsFrom(g.value, ContactKey(contactName, HOST_NOTIFICATION_OPTIONS), r.value)
  {
    r := GetContactHostNotificationOptions(g, contactName);
  }

  method ReadServiceOptions(g: Option<Properties>, contactName: string) returns (r: Result<seq<C.ServiceNotificationOption>>)
    ensures r.Ok? <==> g.Some? && OptionsReadable(g.value, ContactKey(contactName, SERVICE_NOTIFICATION_OPTIONS), C.ServiceOptionValueOf)
    ensures r.Ok? ==> g.Some? && ServiceOptionsFrom(g.value, ContactKey(contactName, SERVICE_NOTIFICATION_OPTIONS), r.value)
  {
    r := GetContactServiceNotificationOptions(g, contactName);
  }

  /** The defaults `new ContactBuilder(...)` reads, each from the `nagios.contact.default.*` keys. */
  method ContactDefaults(g: Option<Properties>) returns (r: Result<C.Defaults>)
    ensures r.Ok? <==> g.Some? && DefaultsReadable(g.value)
    ensures r.Ok? ==> g.Some? && DefaultsPresent(g.value) && SettingsFrom(g.value, CONTACT_DEFAULT_NAME, r.value)
  {
    var hostEnabled :- ReadEnabled(g, DefaultKey(HOST_NOTIFICATIONS_ENABLED));
    var serviceEnabled :- ReadEnabled(g, DefaultKey(SERVICE_NOTIFICATIONS_ENABLED));
    var hostPeriod :- ReadPeriod(g, DefaultKey(HOST_NOTIFICATION_PERIOD));
    var servicePeriod :- ReadPeriod(g, DefaultKey(SERVICE_NOTIFICATION_PERIOD));
    var hostCommands :- ReadCommands(g, DefaultKey(HOST_NOTIFICATION_COMMANDS));
    var serviceCommands :- ReadCommands(g, DefaultKey(SERVICE_NOTIFICATION_COMMANDS));
    var hostOptions :- ReadHostOptions(g, CONTACT_DEFAULT_NAME);
    var serviceOptions :- ReadServiceOptions(g, CONTACT_DEFAULT_NAME);
    r := Ok(C.Defaults(hostEnabled, serviceEnabled, hostPeriod, servicePeriod,
                       hostOptions, serviceOptions, hostCommands, serviceCommands));
  }

  /**
   * `getContactByName(contactName)`: alias (default "") and the required email first, then a
   * builder holding the defaults, then each setting overridden only when the contact's own key
   * is present. The defaults are read even when every setting is overridden.
   */
  method GetContactByName(g: Option<Properties>, contactName: string) returns (r: Result<C.Contact>)
    ensures g.None? ==> r.Err?
    ensures g.Some? && ContactKey(contactName, EMAIL) !in g.value ==> r.Err?
    ensures r.Ok? <==> g.Some? && ContactReadable(g.value, contactName)
    ensures r.Ok? ==> g.Some? && DefaultsPresent(g.value) && ContactFields(g.value, contactName, r.value)
  {
    var alias :- GetStringProperty(g, ContactKey(contactName, ALIAS), Some(""));
    var email :- GetStringProperty(g, ContactKey(contactName, EMAIL), None);
    var defaults :- ContactDefaults(g);
    var builder := new C.ContactBuilder(contactName, alias, email, defaults);
    builder :- OverrideHostSettings(g, contactName, builder);
    builder :- OverrideServiceSettings(g, contactName, builder);
    var contact := builder.Build();
    ContactFieldsOfSettings(g.value, contactName, alias, email, contact);
    r := Ok(contact);
  }

  /** The four host `if`s of `getContactByName`, in their order; the service settings stay. */
  method OverrideHostSettings(g: Option<Properties>, contactName: string, builder: C.ContactBuilder)
    returns (r: Result<C.ContactBuilder>)
    requires g.Some?
    requires EnabledFrom(g.value, DefaultKey(HOST_NOTIFICATIONS_ENABLED), builder.hostNotificationsEnabled)
    requires HostOptionsFrom(g.value, DefaultKey(HOST_NOTIFICATION_OPTIONS), builder.hostNotificationOptions)
    requires SetFrom(g.value, DefaultKey(HOST_NOTIFICATION_COMMANDS), builder.hostNotificationCommands)
    requires RequiredFrom(g.value, DefaultKey(HOST_NOTIFICATION_PERIOD), builder.hostNotificationPeriod)
    modifies builder
    ensures r.Ok? <==> HostOverridesReadable(g.value, contactName)
    ensures r.Ok? ==> r.value == builder
    ensures r.Ok? ==> EnabledFrom(g.value, Source(g.value, contactName, HOST_NOTIFICATIONS_ENABLED), builder.hostNotificationsEnabled)
    ensures r.Ok? ==> HostOptionsFrom(g.value, Source(g.value, contactName, HOST_NOTIFICATION_OPTIONS), builder.hostNotificationOptions)
    ensures r.Ok? ==> SetFrom(g.value, Source(g.value, contactName, HOST_NOTIFICATION_COMMANDS), builder.hostNotificationCommands)
    ensures r.Ok? ==> RequiredFrom(g.value, Source(g.value, contactName, HOST_NOTIFICATION_PERIOD), builder.hostNotificationPeriod)
    ensures builder.Snapshot() == old(builder.Snapshot()).(
      hostNotificationsEnabled := builder.hostNotificationsEnabled,
      hostNotificationOptions := builder.hostNotificationOptions,
      hostNotificationCommands := builder.hostNotificationCommands,
      hostNotificationPeriod := builder.hostNotificationPeriod)
  {
    var b :- OverrideHostNotificationsEnabled(g, contactName, builder);
    b :- OverrideHostNotificationOptions(g, contactName, builder);
    b :- OverrideHostNotificationCommands(g, contactName, builder);
    b :- OverrideHostNotificationPeriod(g, contactName, builder);
    r := Ok(b);
  }

  /** The four service `if`s of `getContactByName`, in their order; the host settings stay. */
  method OverrideServiceSettings(g: Option<Properties>, contactName: string, builder: C.ContactBuilder)
    returns (r: Result<C.ContactBuilder>)
    requires g.Some?
    requires EnabledFrom(g.value, DefaultKey(SERVICE_NOTIFICATIONS_ENABLED), builder.serviceNotificationsEnabled)
    requires ServiceOptionsFrom(g.value, DefaultKey(SERVICE_NOTIFICATION_OPTIONS), builder.serviceNotificationOptions)
    requires SetFrom(g.value, DefaultKey(SERVICE_NOTIFICATION_COMMANDS), builder.serviceNotificationCommands)
    requires RequiredFrom(g.value, DefaultKey(SERVICE_NOTIFICATION_PERIOD), builder.serviceNotificationPeriod)
    modifies builder
    ensures r.Ok? <==> ServiceOverridesReadable(g.value, contactName)
    ensures r.Ok? ==> r.value == builder
    ensures r.Ok? ==> EnabledFrom(g.value, Source(g.value, contactName, SERVICE_NOTIFICATIONS_ENABLED), builder.serviceNotificationsEnabled)
    ensures r.Ok? ==> ServiceOptionsFrom(g.value, Source(g.value, contactName, SERVICE_NOTIFICATION_OPTIONS), builder.serviceNotificationOptions)
    ensures r.Ok? ==> SetFrom(g.value, Source(g.value, contactName, SERVICE_NOTIFICATION_COMMANDS), builder.serviceNotificationCommands)
    ensures r.Ok? ==> RequiredFrom(g.value, Source(g.value, contactName, SERVICE_NOTIFICATION_PERIOD), builder.serviceNotificationPeriod)
    ensures builder.Snapshot() == old(builder.Snapshot()).(
      serviceNotificationsEnabled := builder.serviceNotificationsEnabled,
      serviceNotificationOptions := builder.serviceNotificationOptions,
      serviceNotificationCommands := builder.serviceNotificationCommands,
      serviceNotificationPeriod := builder.serviceNotificationPeriod)
  {
    var b :- OverrideServiceNotificationsEnabled(g, contactName, builder);
    b :- OverrideServiceNotificationOptions(g, contactName, builder);
    b :- OverrideServiceNotificationCommands(g, contactName, builder);
    b :- OverrideServiceNotificationPeriod(g, contactName, builder);
    r := Ok(b);
  }

  /** One `if` of `getContactByName`: the setting is replaced only when the contact's own key is present. */
  method OverrideHostNotificationsEnabled(g: Option<Properties>, contactName: string, builder: C.ContactBuilder)
    returns (r: Result<C.ContactBuilder>)
    requires g.Some? && EnabledFrom(g.value, DefaultKey(HOST_NOTIFICATIONS_ENABLED), builder.hostNotificationsEnabled)
    modifies builder
    ensures r.Ok? ==> r.value == builder && EnabledFrom(g.value, Source(g.value, contactName, HOST_NOTIFICATIONS_ENABLED), builder.hostNotificationsEnabled)
    ensures r.Ok? <==> (ContactKey(contactName, HOST_NOTIFICATIONS_ENABLED) in g.value ==> EnabledReadable(g.value, ContactKey(contactName, HOST_NOTIFICATIONS_ENABLED)))
    ensures ContactKey(contactName, HOST_NOTIFICATIONS_ENABLED) !in g.value ==> r == Ok(builder) && builder.Snapshot() == old(builder.Snapshot())
    ensures builder.Snapshot() == old(builder.Snapshot()).(hostNotificationsEnabled := builder.hostNotificationsEnabled)
  {
    r := Ok(builder);
    if ContactKey(contactName, HOST_NOTIFICATIONS_ENABLED) in g.value {
      var enabled :- ReadEnabled(g, ContactKey(contactName, HOST_NOTIFICATIONS_ENABLED));
      var b := builder.SetHostNotificationsEnabled(enabled);
      r := Ok(b);
    }
  }

  /** One `if` of `getContactByName`: the setting is replaced only when the contact's own key is present. */
  method OverrideHostNotificationOptions(g: Option<Properties>, contactName: string, builder: C.ContactBuilder)
    returns (r: Result<C.ContactBuilder>)
    requires g.Some? && HostOptionsFrom(g.value, DefaultKey(HOST_NOTIFICATION_OPTIONS), builder.hostNotificationOptions)
    modifies builder
    ensures r.Ok? ==> r.value == builder && HostOptionsFrom(g.value, Source(g.value, contactName, HOST_NOTIFICATION_OPTIONS), builder.hostNotificationOptions)
    ensures r.Ok? <==> (ContactKey(contactName, HOST_NOTIFICATION_OPTIONS) in g.value ==> OptionsReadable(g.value, ContactKey(contactName, HOST_NOTIFICATION_OPTIONS), C.HostOptionValueOf))
    ensures ContactKey(contactName, HOST_NOTIFICATION_OPTIONS) !in g.value ==> r == Ok(builder) && builder.Snapshot() == old(builder.Snapshot())
    ensures builder.Snapshot() == old(builder.Snapshot()).(hostNotificationOptions := builder.hostNotificationOptions)
  {
    r := Ok(builder);
    if ContactKey(contactName, HOST_NOTIFICATION_OPTIONS) in g.value {
      var options :- ReadHostOptions(g, contactName);
      var b := builder.SetHostNotificationOptions(options);
      r := Ok(b);
    }
  }

  /** One `if` of `getContactByName`: the setting is replaced only when the contact's own key is present. */
  method OverrideHostNotificationCommands(g: Option<Properties>, contactName: string, builder: C.ContactBuilder)
    returns (r: Result<C.ContactBuilder>)
    requires g.Some? && SetFrom(g.value, DefaultKey(HOST_NOTIFICATION_COMMANDS), builder.hostNotificationCommands)
    modifies builder
    ensures r.Ok? ==> r.value == builder && SetFrom(g.value, Source(g.value, contactName, HOST_NOTIFICATION_COMMANDS), builder.hostNotificationCommands)
    ensures r.Ok? <==> (ContactKey(contactName, HOST_NOTIFICATION_COMMANDS) in g.value ==> NonBlank(g.value, ContactKey(contactName, HOST_NOTIFICATION_COMMANDS)))
    ensures ContactKey(contactName, HOST_NOTIFICATION_COMMANDS) !in g.value ==> r == Ok(builder) && builder.Snapshot() == old(builder.Snapshot())
    ensures builder.Snapshot() == old(builder.Snapshot()).(hostNotificationCommands := builder.hostNotificationCommands)
  {
    r := Ok(builder);
    if ContactKey(contactName, HOST_NOTIFICATION_COMMANDS) in g.value {
      var commands :- ReadCommands(g, ContactKey(contactName, HOST_NOTIFICATION_COMMANDS));
      var b := builder.SetHostNotificationCommands(commands);
      r := Ok(b);
    }
  }

  /** One `if` of `getContactByName`: the setting is replaced only when the contact's own key is present. */
  method OverrideHostNotificationPeriod(g: Option<Properties>, contactName: string, builder: C.ContactBuilder)
    returns (r: Result<C.ContactBuilder>)
    requires g.Some? && RequiredFrom(g.value, DefaultKey(HOST_NOTIFICATION_PERIOD), builder.hostNotificationPeriod)
    modifies builder
    ensures r.Ok? ==> r.value == builder && RequiredFrom(g.value, Source(g.value, contactName, HOST_NOTIFICATION_PERIOD), builder.hostNotificationPeriod)
    ensures r.Ok? <==> (ContactKey(contactName, HOST_NOTIFICATION_PERIOD) in g.value ==> NonBlank(g.value, ContactKey(contactName, HOST_NOTIFICATION_PERIOD)))
    ensures ContactKey(contactName, HOST_NOTIFICATION_PERIOD) !in g.value ==> r == Ok(builder) && builder.Snapshot() == old(builder.Snapshot())
    ensures builder.Snapshot() == old(builder.Snapshot()).(hostNotificationPeriod := builder.hostNotificationPeriod)
  {
    r := Ok(builder);
    if ContactKey(contactName, HOST_NOTIFICATION_PERIOD) in g.value {
      var period :- ReadPeriod(g, ContactKey(contactName, HOST_NOTIFICATION_PERIOD));
      var b := builder.SetHostNotificationPeriod(period);
      r := Ok(b);
    }
  }

  /** One `if` of `getContactByName`: the setting is replaced only when the contact's own key is present. */
  method OverrideServiceNotificationsEnabled(g: Option<Properties>, contactName: string, builder: C.ContactBuilder)
    returns (r: Result<C.ContactBuilder>)
    requires g.Some? && EnabledFrom(g.value, DefaultKey(SERVICE_NOTIFICATIONS_ENABLED), builder.serviceNotificationsEnabled)
    modifies builder
    ensures r.Ok? ==> r.value == builder && EnabledFrom(g.value, Source(g.value, contactName, SERVICE_NOTIFICATIONS_ENABLED), builder.serviceNotificationsEnabled)
    ensures r.Ok? <==> (ContactKey(contactName, SERVICE_NOTIFICATIONS_ENABLED) in g.value ==> EnabledReadable(g.value, ContactKey(contactName, SERVICE_NOTIFICATIONS_ENABLED)))
    ensures ContactKey(contactName, SERVICE_NOTIFICATIONS_ENABLED) !in g.value ==> r == Ok(builder) && builder.Snapshot() == old(builder.Snapshot())
    ensures builder.Snapshot() == old(builder.Snapshot()).(serviceNotificationsEnabled := builder.serviceNotificationsEnabled)
  {
    r := Ok(builder);
    if ContactKey(contactName, SERVICE_NOTIFICATIONS_ENABLED) in g.value {
      var enabled :- ReadEnabled(g, ContactKey(contactName, SERVICE_NOTIFICATIONS_ENABLED));
      var b := builder.SetServiceNotificationsEnabled(enabled);
      r := Ok(b);
    }
  }

  /** One `if` of `getContactByName`: the setting is replaced only when the contact's own key is present. */
  method OverrideServiceNotificationOptions(g: Option<Properties>, contactName: string, builder: C.ContactBuilder)
    returns (r: Result<C.ContactBuilder>)
    requires g.Some? && ServiceOptionsFrom(g.value, DefaultKey(SERVICE_NOTIFICATION_OPTIONS), builder.serviceNotificationOptions)
    modifies builder
    ensures r.Ok? ==> r.value == builder && ServiceOptionsFrom(g.value, Source(g.value, contactName, SERVICE_NOTIFICATION_OPTIONS), builder.serviceNotificationOptions)
    ensures r.Ok? <==> (ContactKey(contactName, SERVICE_NOTIFICATION_OPTIONS) in g.value ==> OptionsReadable(g.value, ContactKey(contactName, SERVICE_NOTIFICATION_OPTIONS), C.ServiceOptionValueOf))
    ensures ContactKey(contactName, SERVICE_NOTIFICATION_OPTIONS) !in g.value ==> r == Ok(builder) && builder.Snapshot() == old(builder.Snapshot())
    ensures builder.Snapshot() == old(builder.Snapshot()).(serviceNotificationOptions := builder.serviceNotificationOptions)
  {
    r := Ok(builder);
    if ContactKey(contactName, SERVICE_NOTIFICATION_OPTIONS) in g.value {
      var options :- ReadServiceOptions(g, contactName);
      var b := builder.SetServiceNotificationOptions(options);
      r := Ok(b);
    }
  }

  /** One `if` of `getContactByName`: the setting is replaced only when the contact's own key is present. */
  method OverrideServiceNotificationCommands(g: Option<Properties>, contactName: string, builder: C.ContactBuilder)
    returns (r: Result<C.ContactBuilder>)
    requires g.Some? && SetFrom(g.value, DefaultKey(SERVICE_NOTIFICATION_COMMANDS), builder.serviceNotificationCommands)
    modifies builder
    ensures r.Ok? ==> r.value == builder && SetFrom(g.value, Source(g.value, contactName, SERVICE_NOTIFICATION_COMMANDS), builder.serviceNotificationCommands)
    ensures r.Ok? <==> (ContactKey(contactName, SERVICE_NOTIFICATION_COMMANDS) in g.value ==> NonBlank(g.value, ContactKey(contactName, SERVICE_NOTIFICATION_COMMANDS)))
    ensures ContactKey(contactName, SERVICE_NOTIFICATION_COMMANDS) !in g.value ==> r == Ok(builder) && builder.Snapshot() == old(builder.Snapshot())
    ensures builder.Snapshot() == old(builder.Snapshot()).(serviceNotificationCommands := builder.serviceNotificationCommands)
  {
    r := Ok(builder);
    if ContactKey(contactName, SERVICE_NOTIFICATION_COMMANDS) in g.value {
      var commands :- ReadCommands(g, ContactKey(contactName, SERVICE_NOTIFICATION_COMMANDS));
      var b := builder.SetServiceNotificationCommands(commands);
      r := Ok(b);
    }
  }

  /** One `if` of `getContactByName`: the setting is replaced only when the contact's own key is present. */
  method OverrideServiceNotificationPeriod(g: Option<Properties>, contactName: string, builder: C.ContactBuilder)
    returns (r: Result<C.ContactBuilder>)
    requires g.Some? && RequiredFrom(g.value, DefaultKey(SERVICE_NOTIFICATION_PERIOD), builder.serviceNotificationPeriod)
    modifies builder
    ensures r.Ok? ==> r.value == builder && RequiredFrom(g.value, Source(g.value, contactName, SERVICE_NOTIFICATION_PERIOD), builder.serviceNotificationPeriod)
    ensures r.Ok? <==> (ContactKey(contactName, SERVICE_NOTIFICATION_PERIOD) in g.value ==> NonBlank(g.value, ContactKey(contactName, SERVICE_NOTIFICATION_PERIOD)))
    ensures ContactKey(contactName, SERVICE_NOTIFICATION_PERIOD) !in g.value ==> r == Ok(builder) && builder.Snapshot() == old(builder.Snapshot())
    ensures builder.Snapshot() == old(builder.Snapshot()).(serviceNotificationPeriod := builder.serviceNotificationPeriod)
  {
    r := Ok(builder);
    if ContactKey(contactName, SERVICE_NOTIFICATION_PERIOD) in g.value {
      var period :- ReadPeriod(g, ContactKey(contactName, SERVICE_NOTIFICATION_PERIOD));
      var b := builder.SetServiceNotificationPeriod(period);
      r := Ok(b);
    }
  }

  /** A contact whose eight settings each come from their source key has the fields `getContactByName` reads. */
  lemma ContactFieldsOfSettings(p: Properties, contactName: string, alias: string, email: string, c: C.Contact)
    requires c.name == contactName && c.alias == alias && c.email == email
    requires GetStringProperty(Some(p), ContactKey(contactName, ALIAS), Some("")) == Ok(alias)
    requires GetStringProperty(Some(p), ContactKey(contactName, EMAIL), None) == Ok(email)
    requires EnabledFrom(p, Source(p, contactName, HOST_NOTIFICATIONS_ENABLED), c.hostNotificationsEnabled)
    requires EnabledFrom(p, Source(p, contactName, SERVICE_NOTIFICATIONS_ENABLED), c.serviceNotificationsEnabled)
    requires RequiredFrom(p, Source(p, contactName, HOST_NOTIFICATION_PERIOD), c.hostNotificationPeriod)
    requires RequiredFrom(p, Source(p, contactName, SERVICE_NOTIFICATION_PERIOD), c.serviceNotificationPeriod)
    requires SetFrom(p, Source(p, contactName, HOST_NOTIFICATION_COMMANDS), c.hostNotificationCommands)
    requires SetFrom(p, Source(p, contactName, SERVICE_NOTIFICATION_COMMANDS), c.serviceNotificationCommands)
    requires HostOptionsFrom(p, Source(p, contactName, HOST_NOTIFICATION_OPTIONS), c.hostNotificationOptions)
    requires ServiceOptionsFrom(p, Source(p, contactName, SERVICE_NOTIFICATION_OPTIONS), c.serviceNotificationOptions)
    ensures ContactFields(p, contactName, c)
  {
  }

  function ContactNames(contacts: seq<C.Contact>): seq<string> {
    seq(|contacts|, i requires 0 <= i < |contacts| => contacts[i].name)
  }

  /**
   * `getAllContacts()`: one contact per distinct name under "nagios.contact.", keys starting
   * "nagios.contact.default" excluded. The key enumeration has no null check, so it fails with
   * a NullPointerException before `init`.
   */
  method GetAllContacts(g: Option<Properties>) returns (r: Result<seq<C.Contact>>)
    ensures g.None? ==> r == Err(NullPointer)
    ensures r.Ok? <==> g.Some? && forall x :: IsName(g.value, CONTACT_PROPERTY_KEY_PREFIX, CONTACT_DEFAULT_PROPERTY_KEY_PREFIX, x) ==>
                                                ContactReadable(g.value, x)
    ensures r.Ok? ==> g.Some? && NameList(g.value, CONTACT_PROPERTY_KEY_PREFIX, CONTACT_DEFAULT_PROPERTY_KEY_PREFIX, ContactNames(r.value))
    ensures r.Ok? ==> forall i :: 0 <= i < |r.value| ==> ContactFields(g.value, r.value[i].name, r.value[i])
  {
    if g.None? {
      return Err(NullPointer);
    }
    var contactNames := GetNames(g.value, CONTACT_PROPERTY_KEY_PREFIX, CONTACT_DEFAULT_PROPERTY_KEY_PREFIX);
    r := ContactsNamed(g.value, contactNames);
  }

  /** The loop of `getAllContacts()`: each name looked up in turn, the first failure ending it. */
  method ContactsNamed(p: Properties, contactNames: seq<string>) returns (r: Result<seq<C.Contact>>)
    ensures r.Ok? <==> forall i :: 0 <= i < |contactNames| ==> ContactReadable(p, contactNames[i])
    ensures r.Ok? ==> ContactNames(r.value) == contactNames
    ensures r.Ok? ==> forall i :: 0 <= i < |r.value| ==> ContactFields(p, r.value[i].name, r.value[i])
  {
    var contacts: seq<C.Contact> := [];
    while |contacts| < |contactNames|
      invariant |contacts| <= |contactNames|
      invariant forall k :: 0 <= k < |contacts| ==> ContactFields(p, contactNames[k], contacts[k])
      invariant forall k :: 0 <= k < |contacts| ==> ContactReadable(p, contactNames[k])
      decreases |contactNames| - |contacts|
    {
      var next := ReadNextContact(p, contactNames, contacts);
      if next.Err? {
        assert !ContactReadable(p, contactNames[|contacts|]);
        return Err(next.error);
      }
      contacts := next.value;
    }
    ContactsOfNames(p, contactNames, contacts);
    r := Ok(contacts);
  }

  /** Contacts read for `contactNames`, one each, carry those names. */
  lemma ContactsOfNames(p: Properties, contactNames: seq<string>, contacts: seq<C.Contact>)
    requires |contacts| == |contactNames|
    requires forall k :: 0 <= k < |contacts| ==> ContactFields(p, contactNames[k], contacts[k])
    ensures ContactNames(contacts) == contactNames
    ensures forall i :: 0 <= i < |contacts| ==> ContactFields(p, contacts[i].name, contacts[i])
  {
  }

  /** One turn of the loop in `getAllContacts`: the next name's contact, appended. */
  method ReadNextContact(p: Properties, contactNames: seq<string>, contacts: seq<C.Contact>)
    returns (r: Result<seq<C.Contact>>)
    requires |contacts| < |contactNames|
    requires forall k :: 0 <= k < |contacts| ==> ContactFields(p, contactNames[k], contacts[k])
    requires forall k :: 0 <= k < |contacts| ==> ContactReadable(p, contactNames[k])
    ensures r.Ok? <==> ContactReadable(p, contactNames[|contacts|])
    ensures r.Ok? ==> |r.value| == |contacts| + 1
    ensures r.Ok? ==> forall k :: 0 <= k < |r.value| ==> ContactFields(p, contactNames[k], r.value[k])
    ensures r.Ok? ==> forall k :: 0 <= k < |r.value| ==> ContactReadable(p, contactNames[k])
  {
    var contact := GetContactByName(Some(p), contactNames[|contacts|]);
    if contact.Err? {
      return Err(contact.error);
    }
    ContactsAppend(p, contactNames, contacts, contact.value);
    ReadableExtends(p, contactNames, |contacts|);
    r := Ok(contacts + [contact.value]);
  }

  lemma ReadableExtends(p: Properties, names: seq<string>, n: nat)
    requires n < |names|
    requires forall k :: 0 <= k < n ==> ContactReadable(p, names[k])
    requires ContactReadable(p, names[n])
    ensures forall k :: 0 <= k < n + 1 ==> ContactReadable(p, names[k])
  {
  }

  lemma ContactsAppend(p: Properties, names: seq<string>, contacts: seq<C.Contact>, c: C.Contact)
    requires |contacts| < |names|
    requires forall k :: 0 <= k < |contacts| ==> ContactFields(p, names[k], contacts[k])
    requires ContactFields(p, names[|contacts|], c)
    ensures forall k :: 0 <= k < |contacts| + 1 ==> ContactFields(p, names[k], (contacts + [c])[k])
  {
  }

  // ---------------------------------------------------------------- contact groups

  const CONTACTGROUP_PROPERTY_KEY_PREFIX: string := "nagios.contactgroup."
  const MEMBERS: string := ".members"

  function ContactGroupKey(contactGroupName: string, suffix: string): string {
    CONTACTGROUP_PROPERTY_KEY_PREFIX + contactGroupName + suffix
  }

  /**
   * `getContactGroupByName(contactGroupName)`: a non-blank alias and a non-blank members value
   * are required; the group holds the member set read from the properties.
   */
  method GetContactGroupByName(g: Option<Properties>, contactGroupName: string) returns (r: Result<CG.ContactGroup>)
    ensures r.Ok? <==> g.Some? && NonBlank(g.value, ContactGroupKey(contactGroupName, ALIAS))
                       && NonBlank(g.value, ContactGroupKey(contactGroupName, MEMBERS))
    ensures r.Ok? ==> r.value.name == contactGroupName
    ensures r.Ok? ==> r.value.alias == Trim(g.value[ContactGroupKey(contactGroupName, ALIAS)])
    ensures r.Ok? ==> SetFrom(g.value, ContactGroupKey(contactGroupName, MEMBERS), r.value.members.elements)
  {
    var alias :- GetRequiredStringProperty(g, ContactGroupKey(contactGroupName, ALIAS));
    var members :- GetSetProperty(g, ContactGroupKey(contactGroupName, MEMBERS), false);
    var memberSet := new CG.MemberSet(members);
    var group := new CG.ContactGroup.WithMembers(contactGroupName, alias, memberSet);
    r := Ok(group);
  }

  function GroupNames(groups: seq<CG.ContactGroup>): seq<string> {
    seq(|groups|, i requires 0 <= i < |groups| => groups[i].name)
  }

  /** `getAllContactGroups()`: one group per distinct name under "nagios.contactgroup.". */
  method GetAllContactGroups(g: Option<Properties>) returns (r: Result<seq<CG.ContactGroup>>)
    ensures g.None? ==> r == Err(NullPointer)
    ensures r.Ok? <==> g.Some? && forall x :: IsName(g.value, CONTACTGROUP_PROPERTY_KEY_PREFIX, "", x) ==> GroupReadable(g.value, x)
    ensures r.Ok? ==> g.Some? && NameList(g.value, CONTACTGROUP_PROPERTY_KEY_PREFIX, "", GroupNames(r.value))
    ensures r.Ok? ==> forall i :: 0 <= i < |r.value| ==> GroupRead(g.value, r.value[i].name, r.value[i])
  {
    if g.None? {
      return Err(NullPointer);
    }
    var contactGroupNames := GetNames(g.value, CONTACTGROUP_PROPERTY_KEY_PREFIX, "");
    r := GroupsNamed(g.value, contactGroupNames);
  }

  /** The loop of `getAllContactGroups()`: each name looked up in turn, the first failure ending it. */
  method GroupsNamed(p: Properties, contactGroupNames: seq<string>) returns (r: Result<seq<CG.ContactGroup>>)
    ensures r.Ok? <==> forall i :: 0 <= i < |contactGroupNames| ==> GroupReadable(p, contactGroupNames[i])
    ensures r.Ok? ==> GroupNames(r.value) == contactGroupNames
    ensures r.Ok? ==> forall i :: 0 <= i < |r.value| ==> GroupRead(p, r.value[i].name, r.value[i])
  {
    var groups: seq<CG.ContactGroup> := [];
    while |groups| < |contactGroupNames|
      invariant |groups| <= |contactGroupNames|
      invariant forall k :: 0 <= k < |groups| ==> GroupRead(p, contactGroupNames[k], groups[k])
      invariant forall k :: 0 <= k < |groups| ==> GroupReadable(p, contactGroupNames[k])
      decreases |contactGroupNames| - |groups|
    {
      var next := ReadNextGroup(p, contactGroupNames, groups);
      if next.Err? {
        return Err(next.error);
      }
      groups := next.value;
    }
    assert GroupNames(groups) == contactGroupNames;
    r := Ok(groups);
  }

  /** `getContactGroupByName(name)` returns: the alias and the members are both non-blank. */
  predicate GroupReadable(p: Properties, name: string) {
    NonBlank(p, ContactGroupKey(name, ALIAS)) && NonBlank(p, ContactGroupKey(name, MEMBERS))
  }

  /**
   * `group` is the one read for `name`: it carries that name, the trimmed alias and the members
   * read from the properties.
   */
  ghost predicate GroupRead(p: Properties, name: string, group: CG.ContactGroup)
    reads group.members
  {
    && group.name == name
    && ContactGroupKey(name, ALIAS) in p && group.alias == Trim(p[ContactGroupKey(name, ALIAS)])
    && SetFrom(p, ContactGroupKey(name, MEMBERS), group.members.elements)
  }

  /** One turn of the loop in `getAllContactGroups`: the next name's group, appended. */
  method ReadNextGroup(p: Properties, contactGroupNames: seq<string>, groups: seq<CG.ContactGroup>)
    returns (r: Result<seq<CG.ContactGroup>>)
    requires |groups| < |contactGroupNames|
    requires forall k :: 0 <= k < |groups| ==> GroupRead(p, contactGroupNames[k], groups[k])
    ensures r.Ok? <==> GroupReadable(p, contactGroupNames[|groups|])
    ensures r.Ok? ==> |r.value| == |groups| + 1
    ensures r.Ok? ==> forall k :: 0 <= k < |r.value| ==> GroupRead(p, contactGroupNames[k], r.value[k])
  {
    var group := GetContactGroupByName(Some(p), contactGroupNames[|groups|]);
    if group.Err? {
      return Err(group.error);
    }
    r := Ok(groups + [group.value]);
  }

  // ---------------------------------------------------------------- commands

  const COMMANDS_PROPERTY_KEY_PREFIX: string := "nagios.command."

  /**
   * `getCommandByName(commandName)`: the trimmed, non-blank value of "nagios.command.<name>",
   * each newline replaced by the two characters '\' 'n': the line is the value's newline-separated
   * pieces joined with "\n" written out, so it never holds a newline, and a value without one is
   * kept as it is.
   */
  function GetCommandByName(g: Option<Properties>, commandName: string): (r: Result<Cmd.Command>)
    ensures r.Ok? <==> GetRequiredStringProperty(g, COMMANDS_PROPERTY_KEY_PREFIX + commandName).Ok?
    ensures r.Ok? ==> r.value.name == commandName && '\n' !in r.value.line
    ensures r.Ok? ==>
      r.value.line == Join(Pieces(Trim(g.value[COMMANDS_PROPERTY_KEY_PREFIX + commandName]), "\n"), "\\n")
    ensures r.Ok? && '\n' !in Trim(g.value[COMMANDS_PROPERTY_KEY_PREFIX + commandName]) ==>
      r.value.line == Trim(g.value[COMMANDS_PROPERTY_KEY_PREFIX + commandName])
  {
    match GetRequiredStringProperty(g, COMMANDS_PROPERTY_KEY_PREFIX + commandName)
    case Err(e) => Err(e)
    case Ok(v) =>
      ReplaceCharWithRemoves(v, '\n', "\\n");
      ReplaceCharWithIsSplitJoin(v, '\n', "\\n");
      if '\n' !in v then ReplaceCharWithAbsent(v, '\n', "\\n"); Ok(Cmd.Command(commandName, ReplaceCharWith(v, '\n', "\\n")))
      else Ok(Cmd.Command(commandName, ReplaceCharWith(v, '\n', "\\n")))
  }

  /** A command read from the properties always reads back from its definition, name permitting. */
  lemma CommandReadsBack(g: Option<Properties>, commandName: string)
    requires GetCommandByName(g, commandName).Ok? && '\n' !in commandName
    ensures var c := GetCommandByName(g, commandName).value;
      ObjectFormat.ParseAll(Cmd.ObjectDefinitions(c)) == Some([Cmd.CommandDefinition(c)])
  {
    Cmd.ReadBack(GetCommandByName(g, commandName).value);
  }

  function CommandNames(commands: seq<Cmd.Command>): seq<string> {
    seq(|commands|, i requires 0 <= i < |commands| => commands[i].name)
  }

  /** `getAllCommands()`: one command per distinct name under "nagios.command.". */
  method GetAllCommands(g: Option<Properties>) returns (r: Result<seq<Cmd.Command>>)
    ensures g.None? ==> r == Err(NullPointer)
    ensures r.Ok? <==> g.Some? && forall x :: IsName(g.value, COMMANDS_PROPERTY_KEY_PREFIX, "", x) ==>
                                                NonBlank(g.value, COMMANDS_PROPERTY_KEY_PREFIX + x)
    ensures r.Ok? ==> g.Some? && NameList(g.value, COMMANDS_PROPERTY_KEY_PREFIX, "", CommandNames(r.value))
    ensures r.Ok? ==> forall i :: 0 <= i < |r.value| ==> GetCommandByName(g, r.value[i].name) == Ok(r.value[i])
  {
    if g.None? {
      return Err(NullPointer);
    }
    var commandNames := GetNames(g.value, COMMANDS_PROPERTY_KEY_PREFIX, "");
    var commands: seq<Cmd.Command> := [];
    var i := 0;
    while i < |commandNames|
      invariant 0 <= i <= |commandNames|
      invariant |commands| == i
      invariant forall k :: 0 <= k < i ==> commands[k].name == commandNames[k]
      invariant forall k :: 0 <= k < i ==> GetCommandByName(g, commands[k].name) == Ok(commands[k])
      invariant forall k :: 0 <= k < i ==> NonBlank(g.value, COMMANDS_PROPERTY_KEY_PREFIX + commandNames[k])
    {
      var command := GetCommandByName(g, commandNames[i]);
      if command.Err? {
        return Err(command.error);
      }
      commands := commands + [command.value];
      i := i + 1;
    }
    assert CommandNames(commands) == commandNames;
    r := Ok(commands);
  }
}
