/**
 * `Contact`, its builder, and the two notification-option enums. A contact is immutable once
 * built; the builder starts from the global defaults and each setter replaces one field.
 */
module Contact {
  import opened Wrappers
  import opened JavaString
  import opened ObjectFormat

  /** `HostNotificationOption`: d, u, r, f, s, n. */
  datatype HostNotificationOption = HostD | HostU | HostR | HostF | HostS | HostN

  /** `ServiceNotificationOption`: w, u, c, r, f, n. */
  datatype ServiceNotificationOption = ServiceW | ServiceU | ServiceC | ServiceR | ServiceF | ServiceN

  /** `name()` of a host option: its one letter. */
  function HostOptionName(o: HostNotificationOption): string {
    match o
    case HostD => "d"
    case HostU => "u"
    case HostR => "r"
    case HostF => "f"
    case HostS => "s"
    case HostN => "n"
  }

  /**
   * `HostNotificationOption.valueOf(name)`: the constant with that exact name, if any; the
   * inverse of `name()`.
   */
  function HostOptionValueOf(name: string): (r: Option<HostNotificationOption>)
    ensures forall o :: r == Some(o) <==> HostOptionName(o) == name
  {
    if name == "d" then Some(HostD)
    else if name == "u" then Some(HostU)
    else if name == "r" then Some(HostR)
    else if name == "f" then Some(HostF)
    else if name == "s" then Some(HostS)
    else if name == "n" then Some(HostN)
    else None
  }

  function ServiceOptionName(o: ServiceNotificationOption): string {
    match o
    case ServiceW => "w"
    case ServiceU => "u"
    case ServiceC => "c"
    case ServiceR => "r"
    case ServiceF => "f"
    case ServiceN => "n"
  }

  /** `ServiceNotificationOption.valueOf(name)` */
  function ServiceOptionValueOf(name: string): (r: Option<ServiceNotificationOption>)
    ensures forall o :: r == Some(o) <==> ServiceOptionName(o) == name
  {
    if name == "w" then Some(ServiceW)
    else if name == "u" then Some(ServiceU)
    else if name == "c" then Some(ServiceC)
    else if name == "r" then Some(ServiceR)
    else if name == "f" then Some(ServiceF)
    else if name == "n" then Some(ServiceN)
    else None
  }

  datatype Contact = Contact(
    name: string,
    alias: string,
    email: string,
    hostNotificationsEnabled: bool,
    serviceNotificationsEnabled: bool,
    hostNotificationPeriod: string,
    serviceNotificationPeriod: string,
    hostNotificationOptions: seq<HostNotificationOption>,
    serviceNotificationOptions: seq<ServiceNotificationOption>,
    hostNotificationCommands: StringSet,
    serviceNotificationCommands: StringSet)

  /**
   * The global defaults a new builder reads: the values of the `nagios.contact.default.*`
   * properties, looked up by the caller.
   */
  datatype Defaults = Defaults(
    hostNotificationsEnabled: bool,
    serviceNotificationsEnabled: bool,
    hostNotificationPeriod: string,
    serviceNotificationPeriod: string,
    hostNotificationOptions: seq<HostNotificationOption>,
    serviceNotificationOptions: seq<ServiceNotificationOption>,
    hostNotificationCommands: StringSet,
    serviceNotificationCommands: StringSet)

  /** `Contact.ContactBuilder` */
  class ContactBuilder {
    const name: string
    const alias: string
    const email: string
    var hostNotificationsEnabled: bool
    var serviceNotificationsEnabled: bool
    var hostNotificationPeriod: string
    var serviceNotificationPeriod: string
    var hostNotificationOptions: seq<HostNotificationOption>
    var serviceNotificationOptions: seq<ServiceNotificationOption>
    var hostNotificationCommands: StringSet
    var serviceNotificationCommands: StringSet

    /** The contact the builder would build now. */
    function Snapshot(): Contact
      reads this
    {
      Contact(name, alias, email, hostNotificationsEnabled, serviceNotificationsEnabled,
              hostNotificationPeriod, serviceNotificationPeriod,
              hostNotificationOptions, serviceNotificationOptions,
              hostNotificationCommands, serviceNotificationCommands)
    }

    /** A new builder holds the given name, alias and email and the defaults for everything else. */
    constructor(name: string, alias: string, email: string, defaults: Defaults)
      ensures Snapshot() == FromDefaults(name, alias, email, defaults)
    {
      this.name := name;
      this.alias := alias;
      this.email := email;
      hostNotificationsEnabled := defaults.hostNotificationsEnabled;
      serviceNotificationsEnabled := defaults.serviceNotificationsEnabled;
      hostNotificationPeriod := defaults.hostNotificationPeriod;
      serviceNotificationPeriod := defaults.serviceNotificationPeriod;
      hostNotificationCommands := defaults.hostNotificationCommands;
      serviceNotificationCommands := defaults.serviceNotificationCommands;
      hostNotificationOptions := defaults.hostNotificationOptions;
      serviceNotificationOptions := defaults.serviceNotificationOptions;
    }

    method SetHostNotificationsEnabled(enabled: bool) returns (builder: ContactBuilder)
      modifies this
      ensures builder == this
      ensures Snapshot() == old(Snapshot()).(hostNotificationsEnabled := enabled)
    {
      hostNotificationsEnabled := enabled;
      builder := this;
    }

    method SetServiceNotificationsEnabled(enabled: bool) returns (builder: ContactBuilder)
      modifies this
      ensures builder == this
      ensures Snapshot() == old(Snapshot()).(serviceNotificationsEnabled := enabled)
    {
      serviceNotificationsEnabled := enabled;
      builder := this;
    }

    method SetHostNotificationPeriod(period: string) returns (builder: ContactBuilder)
      modifies this
      ensures builder == this
      ensures Snapshot() == old(Snapshot()).(hostNotificationPeriod := period)
    {
      hostNotificationPeriod := period;
      builder := this;
    }

    method SetServiceNotificationPeriod(period: string) returns (builder: ContactBuilder)
      modifies this
      ensures builder == this
      ensures Snapshot() == old(Snapshot()).(serviceNotificationPeriod := period)
    {
      serviceNotificationPeriod := period;
      builder := this;
    }

    method SetHostNotificationCommands(commands: StringSet) returns (builder: ContactBuilder)
      modifies this
      ensures builder == this
      ensures Snapshot() == old(Snapshot()).(hostNotificationCommands := commands)
    {
      hostNotificationCommands := commands;
      builder := this;
    }

    method SetServiceNotificationCommands(commands: StringSet) returns (builder: ContactBuilder)
      modifies this
      ensures builder == this
      ensures Snapshot() == old(Snapshot()).(serviceNotificationCommands := commands)
    {
      serviceNotificationCommands := commands;
      builder := this;
    }

    method SetHostNotificationOptions(options: seq<HostNotificationOption>) returns (builder: ContactBuilder)
      modifies this
      ensures builder == this
      ensures Snapshot() == old(Snapshot()).(hostNotificationOptions := options)
    {
      hostNotificationOptions := options;
      builder := this;
    }

    method SetServiceNotificationOptions(options: seq<ServiceNotificationOption>) returns (builder: ContactBuilder)
      modifies this
      ensures builder == this
      ensures Snapshot() == old(Snapshot()).(serviceNotificationOptions := options)
    {
      serviceNotificationOptions := options;
      builder := this;
    }

    /** `build()` copies every builder field into the contact unchanged. */
    method Build() returns (contact: Contact)
      ensures contact == Snapshot()
    {
      contact := Contact(name, alias, email, hostNotificationsEnabled, serviceNotificationsEnabled,
                         hostNotificationPeriod, serviceNotificationPeriod,
                         hostNotificationOptions, serviceNotificationOptions,
                         hostNotificationCommands, serviceNotificationCommands);
    }
  }

  /** The contact a fresh builder stands for. */
  function FromDefaults(name: string, alias: string, email: string, d: Defaults): (c: Contact)
    ensures c.name == name && c.alias == alias && c.email == email
    ensures c.hostNotificationsEnabled == d.hostNotificationsEnabled
    ensures c.serviceNotificationsEnabled == d.serviceNotificationsEnabled
    ensures c.hostNotificationPeriod == d.hostNotificationPeriod
    ensures c.serviceNotificationPeriod == d.serviceNotificationPeriod
    ensures c.hostNotificationOptions == d.hostNotificationOptions
    ensures c.serviceNotificationOptions == d.serviceNotificationOptions
    ensures c.hostNotificationCommands == d.hostNotificationCommands
    ensures c.serviceNotificationCommands == d.serviceNotificationCommands
  {
    Contact(name, alias, email, d.hostNotificationsEnabled, d.serviceNotificationsEnabled,
            d.hostNotificationPeriod, d.serviceNotificationPeriod,
            d.hostNotificationOptions, d.serviceNotificationOptions,
            d.hostNotificationCommands, d.serviceNotificationCommands)
  }

  /** The eight settings of a contact, as a builder's defaults would hold them. */
  function SettingsOf(c: Contact): (d: Defaults)
    ensures FromDefaults(c.name, c.alias, c.email, d) == c
  {
    Defaults(c.hostNotificationsEnabled, c.serviceNotificationsEnabled,
             c.hostNotificationPeriod, c.serviceNotificationPeriod,
             c.hostNotificationOptions, c.serviceNotificationOptions,
             c.hostNotificationCommands, c.serviceNotificationCommands)
  }

  // ---------------------------------------------------------------- object definition

  function HostOptionsText(options: seq<HostNotificationOption>): string {
    Join(seq(|options|, i requires 0 <= i < |options| => HostOptionName(options[i])), ",")
  }

  function ServiceOptionsText(options: seq<ServiceNotificationOption>): string {
    Join(seq(|options|, i requires 0 <= i < |options| => ServiceOptionName(options[i])), ",")
  }

  const Keys: seq<string> := [
    "contact_name", "alias", "email", "host_notifications_enabled",
    "service_notifications_enabled", "host_notification_period", "service_notification_period",
    "host_notification_options", "service_notification_options", "host_notification_commands",
    "service_notification_commands"]

  function Values(c: Contact): (values: seq<string>)
    ensures |values| == |Keys|
  {
    [c.name, c.alias, c.email, Flag(c.hostNotificationsEnabled), Flag(c.serviceNotificationsEnabled),
     c.hostNotificationPeriod, c.serviceNotificationPeriod,
     HostOptionsText(c.hostNotificationOptions), ServiceOptionsText(c.serviceNotificationOptions),
     Join(c.hostNotificationCommands, ","), Join(c.serviceNotificationCommands, ",")]
  }

  /** The eleven fields of a contact, in the order they are written. */
  function ContactDefinition(c: Contact): Definition {
    Definition("contact", Zip(Keys, Values(c)))
  }

  /** `getObjectDefinitions()`: one `define contact{ ... }` block. */
  function ObjectDefinitions(c: Contact): (text: string)
    ensures StartsWith(text, "define contact{\n") && EndsWith(text, "}\n\n")
  {
    RenderFrame(ContactDefinition(c));
    Render(ContactDefinition(c))
  }

  /** None of the contact's own strings holds a newline. */
  predicate Printable(c: Contact) {
    && '\n' !in c.name && '\n' !in c.alias && '\n' !in c.email
    && '\n' !in c.hostNotificationPeriod && '\n' !in c.serviceNotificationPeriod
    && (forall i :: 0 <= i < |c.hostNotificationCommands| ==> '\n' !in c.hostNotificationCommands[i])
    && (forall i :: 0 <= i < |c.serviceNotificationCommands| ==> '\n' !in c.serviceNotificationCommands[i])
  }

  /** No key of the definition holds a tab. */
  lemma KeysHaveNoTab()
    ensures NoTab(Keys)
  {
    FirstKeysHaveNoTab();
    LastKeysHaveNoTab();
  }

  lemma FirstKeysHaveNoTab()
    ensures forall i :: 0 <= i < 6 ==> '\t' !in Keys[i]
  {
  }

  lemma LastKeysHaveNoTab()
    ensures forall i :: 6 <= i < |Keys| ==> '\t' !in Keys[i]
  {
  }

  lemma PlainDefinition(c: Contact)
    requires Printable(c)
    ensures Plain(ContactDefinition(c))
  {
    KeysHaveNoTab();
    assert NoNewline(Values(c)) by {
      var hs := c.hostNotificationOptions;
      var ss := c.serviceNotificationOptions;
      JoinExcludes(seq(|hs|, i requires 0 <= i < |hs| => HostOptionName(hs[i])), ",", '\n');
      JoinExcludes(seq(|ss|, i requires 0 <= i < |ss| => ServiceOptionName(ss[i])), ",", '\n');
      JoinExcludes(c.hostNotificationCommands, ",", '\n');
      JoinExcludes(c.serviceNotificationCommands, ",", '\n');
    }
    PlainZip("contact", Keys, Values(c));
  }

  /**
   * The definition of a printable contact reads back as its eleven fields: the flags as 1/0,
   * the options by their one-letter names and the commands joined with ','.
   */
  lemma ReadBack(c: Contact)
    requires Printable(c)
    ensures ParseAll(ObjectDefinitions(c)) == Some([ContactDefinition(c)])
    ensures ContactDefinition(c).fields[3].value == (if c.hostNotificationsEnabled then "1" else "0")
    ensures ContactDefinition(c).fields[7].value == HostOptionsText(c.hostNotificationOptions)
  {
    PlainDefinition(c);
    ReadBackOne(ContactDefinition(c));
    FieldValues(c);
  }

  /** The fourth line carries the host flag as 1/0 and the eighth the host options. */
  lemma FieldValues(c: Contact)
    ensures ContactDefinition(c).fields[3].value == (if c.hostNotificationsEnabled then "1" else "0")
    ensures ContactDefinition(c).fields[7].value == HostOptionsText(c.hostNotificationOptions)
  {
    var vs := Values(c);
    assert vs[3] == Flag(c.hostNotificationsEnabled) && vs[7] == HostOptionsText(c.hostNotificationOptions);
  }

  /** The options text splits on ',' back into the one-letter names, in order. */
  lemma HostOptionsTextSplits(options: seq<HostNotificationOption>)
    requires |options| >= 1
    ensures Pieces(HostOptionsText(options), ",")
         == seq(|options|, i requires 0 <= i < |options| => HostOptionName(options[i]))
  {
    var names := seq(|options|, i requires 0 <= i < |options| => HostOptionName(options[i]));
    PiecesOfJoin(names, ',');
  }
}
