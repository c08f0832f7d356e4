/**
 * The registrar facade: the operations the host's domain helper calls
 * (register, renew, transfer, lock, auth code, nameservers, contacts,
 * availability). Each builds the flat eNom parameter set from the request,
 * hands it either to the TLD's extension class or to the generic domain
 * API, and turns the reply into the status object the host expects.
 *
 * What the host supplies is a parameter here: the SLD/TLD split of the
 * domain, the contact records, the ISO country mapping, the extension
 * class's capabilities, and the parsed reply of the call.
 */
module Registrar {
  import opened Wrappers
  import opened PhpArray
  import Text
  import DomainApi
  import Extension
  import ErrorHtml

  // ---------------------------------------------------------------------------
  // Contacts

  /** A contact record as the host's domain helper returns it. */
  datatype Contact = Contact(
    firstName: string, lastName: string, company: string, jobTitle: string,
    address1: string, address2: string, city: string, state: string,
    postcode: string, country: string, email: string,
    phoneCc: string, phone: string, faxCc: string, fax: string)

  /** The four contact roles of a domain, each with its own key prefix. */
  datatype Role = Registrant | Admin | Tech | AuxBilling

  function Prefix(role: Role): string
  {
    match role
    case Registrant => "Registrant"
    case Admin => "Admin"
    case Tech => "Tech"
    case AuxBilling => "AuxBilling"
  }

  /** The four contacts of a request, keyed by role in the host as registrant/administrative/technical/billing. */
  datatype ContactSet = ContactSet(registrant: Contact, administrative: Contact, technical: Contact, billing: Contact)

  function ContactOf(contacts: ContactSet, role: Role): Contact
  {
    match role
    case Registrant => contacts.registrant
    case Admin => contacts.administrative
    case Tech => contacts.technical
    case AuxBilling => contacts.billing
  }

  /**
   * Registration fills in a job title and a fax number when they are missing;
   * transfers and contact updates copy the record as given.
   */
  datatype Mode = WithDefaults | AsGiven

  /** eNom's phone format: `+cc.number`. */
  function PhoneText(cc: string, number: string): string
  {
    "+" + cc + "." + number
  }

  /** The fields of a contact block, named as eNom names them after the role prefix. */
  datatype Field = FirstName | LastName | Address1 | Address2 | City | StateProvince | PostalCode
                 | Country | EmailAddress | Phone | Organization | JobTitle | Fax

  function FieldText(f: Field): string
  {
    match f
    case FirstName => "FirstName"
    case LastName => "LastName"
    case Address1 => "Address1"
    case Address2 => "Address2"
    case City => "City"
    case StateProvince => "StateProvince"
    case PostalCode => "PostalCode"
    case Country => "Country"
    case EmailAddress => "EmailAddress"
    case Phone => "Phone"
    case Organization => "Organization"
    case JobTitle => "JobTitle"
    case Fax => "Fax"
  }

  /** No two fields share a name: length, first and last byte already tell them apart. */
  lemma FieldTextInjective(a: Field, b: Field)
    requires FieldText(a) == FieldText(b)
    ensures a == b
  {
    var s := FieldText(a);
    assert |s| == |FieldText(b)| && s[0] == FieldText(b)[0] && s[|s| - 1] == FieldText(b)[|s| - 1];
  }

  const AllFields: set<Field> := {FirstName, LastName, Address1, Address2, City,
    StateProvince, PostalCode, Country, EmailAddress, Phone, Organization, JobTitle, Fax}

  /** The ten fields every contact block carries. */
  const BaseFields: set<Field> := {FirstName, LastName, Address1, Address2, City,
    StateProvince, PostalCode, Country, EmailAddress, Phone}

  function JobTitleText(c: Contact, mode: Mode): string
  {
    if mode.WithDefaults? && c.jobTitle == "" then "N/A" else c.jobTitle
  }

  function FaxText(c: Contact, mode: Mode): string
  {
    if mode.WithDefaults? && (c.faxCc == "" || c.fax == "") then PhoneText(c.phoneCc, c.phone)
    else PhoneText(c.faxCc, c.fax)
  }

  /**
   * What the facade writes for one field of one role's block, or `None` when
   * it leaves the field out: the ten base fields always, the organisation and
   * job title only for a contact that names a company, the fax only for such
   * a registrant.
   */
  function FieldValue(role: Role, c: Contact, isoCode: string -> string, mode: Mode, f: Field): Option<string>
  {
    match f
    case FirstName => Some(c.firstName)
    case LastName => Some(c.lastName)
    case Address1 => Some(c.address1)
    case Address2 => Some(c.address2)
    case City => Some(c.city)
    case StateProvince => Some(c.state)
    case PostalCode => Some(c.postcode)
    case Country => Some(isoCode(c.country))
    case EmailAddress => Some(c.email)
    case Phone => Some(PhoneText(c.phoneCc, c.phone))
    case Organization => if c.company != "" then Some(c.company) else None
    case JobTitle => if c.company != "" then Some(JobTitleText(c, mode)) else None
    case Fax => if c.company != "" && role.Registrant? then Some(FaxText(c, mode)) else None
  }

  /** The wire key of a field of a role: `RegistrantFirstName`, `AdminPhone`, ... */
  function KeyOf(role: Role, f: Field): string
  {
    Prefix(role) + FieldText(f)
  }

  /** A key starts like the role's prefix: the first three bytes already tell the four prefixes apart. */
  predicate MarkedAs(k: string, role: Role)
  {
    |k| >= 3 &&
    match role
    case Registrant => k[0] == 'R' && k[1] == 'e' && k[2] == 'g'
    case Admin => k[0] == 'A' && k[1] == 'd' && k[2] == 'm'
    case Tech => k[0] == 'T' && k[1] == 'e' && k[2] == 'c'
    case AuxBilling => k[0] == 'A' && k[1] == 'u' && k[2] == 'x'
  }

  lemma KeyOfMarked(role: Role, f: Field)
    ensures MarkedAs(KeyOf(role, f), role)
  {
    var k := KeyOf(role, f);
    assert k[0] == Prefix(role)[0] && k[1] == Prefix(role)[1] && k[2] == Prefix(role)[2];
  }

  /** A key that starts like one of the four role prefixes. */
  predicate IsContactKey(k: string)
  {
    MarkedAs(k, Registrant) || MarkedAs(k, Admin) || MarkedAs(k, Tech) || MarkedAs(k, AuxBilling)
  }

  /** Distinct (role, field) pairs have distinct wire keys. */
  lemma KeyOfInjective(r1: Role, f1: Field, r2: Role, f2: Field)
    requires KeyOf(r1, f1) == KeyOf(r2, f2)
    ensures r1 == r2 && f1 == f2
  {
    KeyOfMarked(r1, f1);
    KeyOfMarked(r2, f2);
    assert r1 == r2;
    assert KeyOf(r1, f1)[|Prefix(r1)|..] == FieldText(f1);
    assert KeyOf(r2, f2)[|Prefix(r2)|..] == FieldText(f2);
    FieldTextInjective(f1, f2);
  }

  /** The written fields of one role's block, before the prefix is put on their keys. */
  function Block(role: Role, c: Contact, isoCode: string -> string, mode: Mode): map<Field, string>
  {
    map f | f in AllFields && FieldValue(role, c, isoCode, mode, f).Some? :: FieldValue(role, c, isoCode, mode, f).value
  }

  /** A field is in the block exactly when it is written, with its value. */
  lemma BlockEntry(role: Role, c: Contact, isoCode: string -> string, mode: Mode, f: Field)
    ensures f in Block(role, c, isoCode, mode) <==> FieldValue(role, c, isoCode, mode, f).Some?
    ensures f in Block(role, c, isoCode, mode) ==> Block(role, c, isoCode, mode)[f] == FieldValue(role, c, isoCode, mode, f).value
  {
    assert f.FirstName? || f.LastName? || f.Address1? || f.Address2? || f.City? || f.StateProvince?
      || f.PostalCode? || f.Country? || f.EmailAddress? || f.Phone? || f.Organization? || f.JobTitle? || f.Fax?;
  }

  /** Each field of `b` under the role's wire key, value unchanged. */
  function PrefixBlock(role: Role, b: map<Field, string>): (p: Params)
    ensures forall k :: k in p ==> MarkedAs(k, role)
  {
    forall f1, f2 | KeyOf(role, f1) == KeyOf(role, f2) ensures f1 == f2 {
      KeyOfInjective(role, f1, role, f2);
    }
    forall f ensures MarkedAs(KeyOf(role, f), role) {
      KeyOfMarked(role, f);
    }
    map f | f in b :: KeyOf(role, f) := b[f]
  }

  /** A wire key of the role is in the prefixed block exactly when its field is in the block, with its value. */
  lemma PrefixBlockKey(role: Role, b: map<Field, string>, f: Field)
    ensures KeyOf(role, f) in PrefixBlock(role, b) <==> f in b
    ensures f in b ==> PrefixBlock(role, b)[KeyOf(role, f)] == b[f]
  {
    var p := PrefixBlock(role, b);
    forall f1, f2 | KeyOf(role, f1) == KeyOf(role, f2) ensures f1 == f2 {
      KeyOfInjective(role, f1, role, f2);
    }
    if f in b {
      assert KeyOf(role, f) in p;
      assert p[KeyOf(role, f)] == b[f];
    }
    if KeyOf(role, f) in p {
      var g :| g in b && KeyOf(role, g) == KeyOf(role, f);
      KeyOfInjective(role, g, role, f);
    }
  }

  /** The contact block of one role as the facade writes it. */
  function RoleParams(role: Role, c: Contact, isoCode: string -> string, mode: Mode): (p: Params)
    ensures forall k :: k in p ==> MarkedAs(k, role)
  {
    PrefixBlock(role, Block(role, c, isoCode, mode))
  }

  /** The block of a role under its wire keys: what `Block` holds for a field, the wire key carries. */
  lemma RoleEntry(role: Role, c: Contact, isoCode: string -> string, mode: Mode, f: Field)
    ensures KeyOf(role, f) in RoleParams(role, c, isoCode, mode) <==> f in Block(role, c, isoCode, mode)
    ensures f in Block(role, c, isoCode, mode) ==>
      RoleParams(role, c, isoCode, mode)[KeyOf(role, f)] == Block(role, c, isoCode, mode)[f]
  {
    PrefixBlockKey(role, Block(role, c, isoCode, mode), f);
  }

  /**
   * `array_merge(base, registrant, admin, tech, billing)`: with string keys
   * that is Dafny's right-biased map `+` (see `PhpArray.Merge`) applied in turn.
   */
  function WithContacts(base: Params, contacts: ContactSet, isoCode: string -> string, mode: Mode): Params
  {
    base + RoleParams(Registrant, contacts.registrant, isoCode, mode)
      + RoleParams(Admin, contacts.administrative, isoCode, mode)
      + RoleParams(Tech, contacts.technical, isoCode, mode)
      + RoleParams(AuxBilling, contacts.billing, isoCode, mode)
  }

  /** A key of one block is in no other block. */
  lemma OutsideOtherBlocks(role: Role, other: Role, contacts: ContactSet, isoCode: string -> string, mode: Mode, k: string)
    requires k in RoleParams(role, ContactOf(contacts, role), isoCode, mode)
    ensures role != other ==> k !in RoleParams(other, ContactOf(contacts, other), isoCode, mode)
  {
  }

  /** When `base` holds no role-prefixed key, every base entry survives the contact merge. */
  lemma WithContactsKeepsBase(base: Params, contacts: ContactSet, isoCode: string -> string, mode: Mode)
    requires forall k :: k in base ==> !IsContactKey(k)
    ensures forall k :: k in base ==>
      k in WithContacts(base, contacts, isoCode, mode) && WithContacts(base, contacts, isoCode, mode)[k] == base[k]
  {
  }

  /** One entry of one block survives the merge: the other blocks never hold its key. */
  lemma BlockEntrySurvives(base: Params, contacts: ContactSet, isoCode: string -> string, mode: Mode, role: Role, k: string)
    requires k in RoleParams(role, ContactOf(contacts, role), isoCode, mode)
    ensures k in WithContacts(base, contacts, isoCode, mode)
    ensures WithContacts(base, contacts, isoCode, mode)[k] == RoleParams(role, ContactOf(contacts, role), isoCode, mode)[k]
  {
    var r := RoleParams(Registrant, contacts.registrant, isoCode, mode);
    var a := RoleParams(Admin, contacts.administrative, isoCode, mode);
    var t := RoleParams(Tech, contacts.technical, isoCode, mode);
    var b := RoleParams(AuxBilling, contacts.billing, isoCode, mode);
    OutsideOtherBlocks(role, Registrant, contacts, isoCode, mode, k);
    OutsideOtherBlocks(role, Admin, contacts, isoCode, mode, k);
    OutsideOtherBlocks(role, Tech, contacts, isoCode, mode, k);
    OutsideOtherBlocks(role, AuxBilling, contacts, isoCode, mode, k);
    match role
    case Registrant => LaterBlocksKeep(base, r, a, t, b, k);
    case Admin => LaterBlocksKeep(base + r, a, t, b, map[], k);
    case Tech => LaterBlocksKeep(base + r + a, t, b, map[], map[], k);
    case AuxBilling => LaterBlocksKeep(base + r + a + t, b, map[], map[], map[], k);
  }

  /** A key of `x` that none of the later maps holds keeps the value of `x`. */
  lemma LaterBlocksKeep(before: Params, x: Params, y: Params, z: Params, w: Params, k: string)
    requires k in x && k !in y && k !in z && k !in w
    ensures k in before + x + y + z + w && (before + x + y + z + w)[k] == x[k]
  {
  }

  /** The merge adds only role-prefixed keys to `base`. */
  lemma WithContactsAddsContactKeys(base: Params, contacts: ContactSet, isoCode: string -> string, mode: Mode)
    ensures forall k :: k in WithContacts(base, contacts, isoCode, mode) ==> k in base || IsContactKey(k)
  {
  }

  /**
   * The ten base fields are always written; the organisation and job title
   * exactly when the contact names a company; the fax only for a registrant
   * that names a company.
   */
  lemma BlockShape(role: Role, c: Contact, isoCode: string -> string, mode: Mode, f: Field)
    ensures f in BaseFields ==> f in Block(role, c, isoCode, mode)
    ensures f == Organization || f == JobTitle ==> (f in Block(role, c, isoCode, mode) <==> c.company != "")
    ensures f == Fax ==> (f in Block(role, c, isoCode, mode) <==> c.company != "" && role == Registrant)
  {
    BlockEntry(role, c, isoCode, mode, f);
  }

  /**
   * For a registration a company contact never goes out without a job title,
   * and the registrant's fax falls back to the phone number when either fax
   * part is missing.
   */
  lemma RegistrationDefaults(role: Role, c: Contact, isoCode: string -> string)
    requires c.company != ""
    ensures JobTitle in Block(role, c, isoCode, WithDefaults)
    ensures Block(role, c, isoCode, WithDefaults)[JobTitle] != ""
    ensures c.jobTitle == "" ==> Block(role, c, isoCode, WithDefaults)[JobTitle] == "N/A"
    ensures role == Registrant ==> Fax in Block(role, c, isoCode, WithDefaults)
    ensures role == Registrant && (c.faxCc == "" || c.fax == "") ==>
      Block(role, c, isoCode, WithDefaults)[Fax] == Block(role, c, isoCode, WithDefaults)[Phone]
  {
    BlockEntry(role, c, isoCode, WithDefaults, JobTitle);
    BlockEntry(role, c, isoCode, WithDefaults, Fax);
    BlockEntry(role, c, isoCode, WithDefaults, Phone);
  }

  /** Transfers and contact updates copy the job title and fax exactly as given, empty or not. */
  lemma CopiedAsGiven(role: Role, c: Contact, isoCode: string -> string)
    requires c.company != ""
    ensures JobTitle in Block(role, c, isoCode, AsGiven)
    ensures Block(role, c, isoCode, AsGiven)[JobTitle] == c.jobTitle
    ensures role == Registrant ==> Fax in Block(role, c, isoCode, AsGiven)
    ensures role == Registrant ==> Block(role, c, isoCode, AsGiven)[Fax] == PhoneText(c.faxCc, c.fax)
  {
    BlockEntry(role, c, isoCode, AsGiven, JobTitle);
    BlockEntry(role, c, isoCode, AsGiven, Fax);
  }

  /** A complete contact produces the same block for a registration and for a transfer. */
  lemma ModesAgreeOnCompleteContacts(role: Role, c: Contact, isoCode: string -> string)
    requires c.jobTitle != "" && c.faxCc != "" && c.fax != ""
    ensures RoleParams(role, c, isoCode, WithDefaults) == RoleParams(role, c, isoCode, AsGiven)
  {
    assert forall f :: FieldValue(role, c, isoCode, WithDefaults, f) == FieldValue(role, c, isoCode, AsGiven, f);
    assert Block(role, c, isoCode, WithDefaults) == Block(role, c, isoCode, AsGiven);
  }

  // ---------------------------------------------------------------------------
  // Replies, routing and status objects

  /** The SLD/TLD split the host's domain helper makes of the request's domain. */
  datatype DomainParts = DomainParts(sld: string, tld: string)

  /**
   * The parsed reply of a call, as far as the facade reads it: the `errors`
   * element (its children's texts) when present, the `RRPText` of an
   * availability check (an absent element reads as ""), and the `dns` entries
   * of a nameserver query.
   */
  datatype Reply = Reply(errors: Option<seq<string>>, rrpText: string, dns: Option<seq<string>>)

  /**
   * The success test `!isset($result->errors) || count($result->errors) < 1`.
   * `count` of `$result->errors` counts the `errors` elements themselves, not
   * their children, so it is at least one whenever the element is set: any
   * `errors` element, even an empty one, is a failure. `None` is a reply
   * that did not parse (the parser returns false), which has no `errors` and
   * therefore counts as a success.
   */
  predicate Succeeded(reply: Option<Reply>)
  {
    reply.None? || reply.value.errors.None?
  }

  /** The three operations a TLD's extension class may take over. */
  datatype Operation = Registering | Renewing | Transferring

  function HandlesItself(caps: Extension.Capabilities, op: Operation): bool
  {
    match op
    case Registering => caps.registrationHandler
    case Renewing => caps.renewalHandler
    case Transferring => caps.transferHandler
  }

  /**
   * Where a request goes: to the extension class with the parameters as built,
   * or to the generic domain API, whose builder adds the command keys.
   */
  datatype Dispatch = ToExtension(params: Params) | ToApi(command: Params)

  /** The fixed keys the generic domain API adds for each operation. */
  function ApiFixed(op: Operation): Params
  {
    match op
    case Registering => map["command" := "Purchase"]
    case Renewing => map["command" := "Extend"]
    case Transferring => map["command" := "TP_CreateOrder", "OrderType" := "Autoverification", "DomainCount" := "1"]
  }

  function ApiCommand(op: Operation, params: Params): Params
  {
    match op
    case Registering => DomainApi.RegisterDomain(params)
    case Renewing => DomainApi.RenewDomain(params)
    case Transferring => DomainApi.TransferDomain(params)
  }

  /**
   * The handler choice `$extension_class && $extension_class->..._handler`:
   * a missing extension class, or one whose flag is off, leaves the request
   * to the generic API.
   */
  function Route(ext: Option<Extension.Capabilities>, op: Operation, params: Params): (d: Dispatch)
    ensures d.ToExtension? <==> ext.Some? && HandlesItself(ext.value, op)
    ensures d.ToExtension? ==> d.params == params
    ensures d.ToApi? ==> Extends(d.command, params, ApiFixed(op))
  {
    if ext.Some? && HandlesItself(ext.value, op) then ToExtension(params) else ToApi(ApiCommand(op, params))
  }

  /** A `type`/`message` pair the host shows to the user. */
  datatype Message = Message(kind: string, text: string)

  /** The fresh status object of register, renew, transfer and contact updates. */
  datatype Status = Status(status: string, response: Option<Message>)

  /**
   * The reply handed back with the fields the facade sets on it: a `status`,
   * and, depending on the operation, a `response`, the `nameservers` list or
   * the `availability` token.
   */
  datatype Annotated = Annotated(reply: Reply, status: string, response: Option<Message>,
    nameservers: Option<seq<string>>, availability: Option<string>)

  /** What an operation sends and what it returns. */
  datatype Outcome<R> = Outcome(dispatch: Dispatch, result: R)

  // ---------------------------------------------------------------------------
  // Assembling a parameter set

  /** `SLD` and `TLD`, the two keys every domain operation starts from. */
  function DomainKeys(d: DomainParts): (p: Params)
    ensures p.Keys == {"SLD", "TLD"} && p["SLD"] == d.sld && p["TLD"] == d.tld
  {
    map["SLD" := d.sld, "TLD" := d.tld]
  }

  /** The request part of a registration or a renewal: the domain, the term, and `IgnoreNSFail`. */
  function TermParams(d: DomainParts, years: string): (p: Params)
    ensures p.Keys == {"SLD", "TLD", "NumYears", "IgnoreNSFail"}
    ensures p["SLD"] == d.sld && p["TLD"] == d.tld && p["NumYears"] == years && p["IgnoreNSFail"] == "Yes"
  {
    map["SLD" := d.sld, "TLD" := d.tld, "NumYears" := years, "IgnoreNSFail" := "Yes"]
  }

  /** `is_array($request->custom_data)`: when present, the custom data is merged over everything built so far. */
  function WithCustomData(p: Params, custom: Option<Params>): Params
  {
    if custom.Some? then Merge(p, custom.value) else p
  }

  /** The custom data does not set `k`. */
  predicate Unclaimed(custom: Option<Params>, k: string)
  {
    custom.None? || k !in custom.value
  }

  /** The contact-carrying parameter set: the base, the four blocks in order, then the custom data. */
  function Assemble(base: Params, contacts: ContactSet, isoCode: string -> string, mode: Mode, custom: Option<Params>): Params
  {
    WithCustomData(WithContacts(base, contacts, isoCode, mode), custom)
  }

  /** Keys the custom data does not set pass through its merge untouched. */
  lemma CustomDataKeeps(p: Params, custom: Option<Params>, k: string)
    requires Unclaimed(custom, k)
    ensures k in WithCustomData(p, custom) <==> k in p
    ensures k in p ==> WithCustomData(p, custom)[k] == p[k]
  {
  }

  /** The custom data has the last word on every key it sets. */
  lemma CustomDataWins(p: Params, custom: Option<Params>, k: string)
    requires custom.Some? && k in custom.value
    ensures k in WithCustomData(p, custom) && WithCustomData(p, custom)[k] == custom.value[k]
  {
  }

  /** A key that the blocks cannot write keeps its base entry through the contact merge. */
  lemma BaseEntrySurvives(base: Params, contacts: ContactSet, isoCode: string -> string, mode: Mode, k: string)
    requires !IsContactKey(k)
    ensures k in WithContacts(base, contacts, isoCode, mode) <==> k in base
    ensures k in base ==> WithContacts(base, contacts, isoCode, mode)[k] == base[k]
  {
    var r := RoleParams(Registrant, contacts.registrant, isoCode, mode);
    var a := RoleParams(Admin, contacts.administrative, isoCode, mode);
    var t := RoleParams(Tech, contacts.technical, isoCode, mode);
    var b := RoleParams(AuxBilling, contacts.billing, isoCode, mode);
    assert k !in r && k !in a && k !in t && k !in b;
  }

  /** A key that the blocks cannot write keeps its base entry, unless the custom data sets it. */
  lemma AssembledBaseEntry(base: Params, contacts: ContactSet, isoCode: string -> string, mode: Mode, custom: Option<Params>, k: string)
    requires !IsContactKey(k)
    ensures custom.Some? && k in custom.value ==>
      k in Assemble(base, contacts, isoCode, mode, custom) && Assemble(base, contacts, isoCode, mode, custom)[k] == custom.value[k]
    ensures Unclaimed(custom, k) ==> (k in Assemble(base, contacts, isoCode, mode, custom) <==> k in base)
    ensures Unclaimed(custom, k) && k in base ==> Assemble(base, contacts, isoCode, mode, custom)[k] == base[k]
  {
    var merged := WithContacts(base, contacts, isoCode, mode);
    BaseEntrySurvives(base, contacts, isoCode, mode, k);
    if Unclaimed(custom, k) {
      CustomDataKeeps(merged, custom, k);
    } else {
      CustomDataWins(merged, custom, k);
    }
  }

  /** Another role's block never holds a role's wire key. */
  lemma OtherBlockMisses(role: Role, other: Role, c: Contact, isoCode: string -> string, mode: Mode, f: Field)
    requires role != other
    ensures KeyOf(role, f) !in RoleParams(other, c, isoCode, mode)
  {
    KeyOfMarked(role, f);
    assert !MarkedAs(KeyOf(role, f), other);
  }

  /** A field the role's block does not write is under no key of the merge, when the base lacks it too. */
  lemma AbsentFromBlocks(base: Params, contacts: ContactSet, isoCode: string -> string, mode: Mode, role: Role, f: Field)
    requires KeyOf(role, f) !in base
    requires f !in Block(role, ContactOf(contacts, role), isoCode, mode)
    ensures KeyOf(role, f) !in WithContacts(base, contacts, isoCode, mode)
  {
    var k := KeyOf(role, f);
    RoleEntry(role, ContactOf(contacts, role), isoCode, mode, f);
    if role != Registrant { OtherBlockMisses(role, Registrant, contacts.registrant, isoCode, mode, f); }
    if role != Admin { OtherBlockMisses(role, Admin, contacts.administrative, isoCode, mode, f); }
    if role != Tech { OtherBlockMisses(role, Tech, contacts.technical, isoCode, mode, f); }
    if role != AuxBilling { OtherBlockMisses(role, AuxBilling, contacts.billing, isoCode, mode, f); }
    MissedByAll(base,
      RoleParams(Registrant, contacts.registrant, isoCode, mode),
      RoleParams(Admin, contacts.administrative, isoCode, mode),
      RoleParams(Tech, contacts.technical, isoCode, mode),
      RoleParams(AuxBilling, contacts.billing, isoCode, mode), k);
  }

  lemma MissedByAll(base: Params, r: Params, a: Params, t: Params, b: Params, k: string)
    requires k !in base && k !in r && k !in a && k !in t && k !in b
    ensures k !in base + r + a + t + b
  {
  }

  /**
   * A contact field's wire key carries what the role's block holds for it,
   * and is there exactly when the block writes the field, unless the custom
   * data sets it.
   */
  lemma AssembledContactEntry(base: Params, contacts: ContactSet, isoCode: string -> string, mode: Mode, custom: Option<Params>, role: Role, f: Field)
    requires KeyOf(role, f) !in base
    requires Unclaimed(custom, KeyOf(role, f))
    ensures KeyOf(role, f) in Assemble(base, contacts, isoCode, mode, custom) <==> f in Block(role, ContactOf(contacts, role), isoCode, mode)
    ensures f in Block(role, ContactOf(contacts, role), isoCode, mode) ==>
      Assemble(base, contacts, isoCode, mode, custom)[KeyOf(role, f)] == Block(role, ContactOf(contacts, role), isoCode, mode)[f]
  {
    var k := KeyOf(role, f);
    var c := ContactOf(contacts, role);
    var merged := WithContacts(base, contacts, isoCode, mode);
    CustomDataKeeps(merged, custom, k);
    RoleEntry(role, c, isoCode, mode, f);
    if f in Block(role, c, isoCode, mode) {
      BlockEntrySurvives(base, contacts, isoCode, mode, role, k);
    } else {
      AbsentFromBlocks(base, contacts, isoCode, mode, role, f);
    }
  }

  /** The register/renew request keys are none of the role-prefixed keys. */
  lemma TermKeysAreNoContactKeys(d: DomainParts, years: string, k: string)
    requires k in TermParams(d, years)
    ensures !IsContactKey(k)
  {
    assert k in TermParams(d, years).Keys;
    TermKeyLiterals();
  }

  lemma TermKeyLiterals()
    ensures !IsContactKey("SLD") && !IsContactKey("TLD")
    ensures !IsContactKey("NumYears") && !IsContactKey("IgnoreNSFail")
  {
    assert "TLD"[1] == 'L' && "NumYears"[0] == 'N' && "IgnoreNSFail"[0] == 'I';
  }

  /** Every key among `NS1..NSn` starts with `NS`. */
  lemma NsKeyStart(n: nat, k: string)
    requires k in DomainApi.NsKeys(n)
    ensures |k| >= 3 && k[0] == 'N' && k[1] == 'S'
  {
    DomainApi.NsKeysShape(n);
  }

  /** A key starting with `NS` is neither role-prefixed nor one of the register/renew request keys. */
  lemma StartsWithNs(d: DomainParts, years: string, k: string)
    requires |k| >= 3 && k[0] == 'N' && k[1] == 'S'
    ensures !IsContactKey(k) && k !in TermParams(d, years)
  {
    assert k !in TermParams(d, years).Keys by {
      assert "SLD"[0] == 'S' && "TLD"[0] == 'T' && "NumYears"[1] == 'u' && "IgnoreNSFail"[0] == 'I';
    }
  }

  // ---------------------------------------------------------------------------
  // registerDomain

  /** A registration request, with the host's contact lookups already made. */
  datatype RegisterRequest = RegisterRequest(
    domain: DomainParts, years: string, nameservers: seq<string>,
    contacts: ContactSet, customData: Option<Params>)

  /** eNom takes at most twelve nameservers. */
  const MaxNameservers: nat := 12

  /** The nameservers the registration sends: the first twelve, in order. */
  function Capped(ns: seq<string>): (c: seq<string>)
    ensures |c| == if |ns| <= MaxNameservers then |ns| else MaxNameservers
    ensures c == ns[..|c|]
  {
    if |ns| <= MaxNameservers then ns else ns[..MaxNameservers]
  }

  /** The request keys with `NS1..NSn` for the capped nameserver list. */
  function WithNameservers(base: Params, ns: seq<string>): Params
  {
    base + DomainApi.NsParams(Capped(ns))
  }

  /**
   * The `foreach` over the nameservers: a counter starting at 1 names the
   * next `NSi` key and only moves while it is at most 12, so every further
   * nameserver is skipped.
   */
  method AddNameservers(base: Params, ns: seq<string>) returns (out: Params)
    ensures out == WithNameservers(base, ns)
  {
    out := base;
    var i := 1;
    var j := 0;
    while j < |ns|
      invariant 0 <= j <= |ns|
      invariant i == (if j <= MaxNameservers then j else MaxNameservers) + 1
      invariant out == base + DomainApi.NsParams(ns[..i - 1])
    {
      if i <= MaxNameservers {
        DomainApi.NsParamsStep(ns, i);
        DomainApi.MergeUpdate(base, DomainApi.NsParams(ns[..i - 1]), DomainApi.NsKey(i), ns[j]);
        out := out[DomainApi.NsKey(i) := ns[j]];
        i := i + 1;
      }
      j := j + 1;
    }
    assert ns[..i - 1] == Capped(ns);
  }

  /** The request keys of a registration, before the contacts and the custom data. */
  function RegisterBase(req: RegisterRequest): Params
  {
    WithNameservers(TermParams(req.domain, req.years), req.nameservers)
  }

  /** What `registerDomain` sends: contacts with the registration defaults filled in, then the custom data. */
  function RegisterParams(req: RegisterRequest, isoCode: string -> string): Params
  {
    Assemble(RegisterBase(req), req.contacts, isoCode, WithDefaults, req.customData)
  }

  /** The registration base holds the four request keys and the `NSi` keys, none of them role-prefixed. */
  lemma RegisterBaseKeys(req: RegisterRequest, k: string)
    ensures k in RegisterBase(req) <==> k in TermParams(req.domain, req.years) || k in DomainApi.NsKeys(|Capped(req.nameservers)|)
    ensures k in RegisterBase(req) ==> !IsContactKey(k)
    ensures k in TermParams(req.domain, req.years) ==> RegisterBase(req)[k] == TermParams(req.domain, req.years)[k]
  {
    var n := |Capped(req.nameservers)|;
    var listed := DomainApi.NsParams(Capped(req.nameservers));
    assert listed.Keys == DomainApi.NsKeys(n);
    if k in DomainApi.NsKeys(n) {
      NsKeyStart(n, k);
      StartsWithNs(req.domain, req.years, k);
    }
    if k in TermParams(req.domain, req.years) {
      TermKeysAreNoContactKeys(req.domain, req.years, k);
    }
  }

  /**
   * The request keys reach eNom as given, and whatever the custom data sets
   * overrides everything else.
   */
  lemma RegisterRequestEntries(req: RegisterRequest, isoCode: string -> string, k: string)
    ensures req.customData.Some? && k in req.customData.value ==>
      k in RegisterParams(req, isoCode) && RegisterParams(req, isoCode)[k] == req.customData.value[k]
    ensures Unclaimed(req.customData, k) && k in TermParams(req.domain, req.years) ==>
      k in RegisterParams(req, isoCode) && RegisterParams(req, isoCode)[k] == TermParams(req.domain, req.years)[k]
  {
    if k in TermParams(req.domain, req.years) {
      RegisterBaseKeys(req, k);
      AssembledBaseEntry(RegisterBase(req), req.contacts, isoCode, WithDefaults, req.customData, k);
    }
  }

  /** `NSi` is sent exactly for the first twelve nameservers (unless the custom data sets it), holding the i-th one. */
  lemma RegisterNameservers(req: RegisterRequest, isoCode: string -> string, i: nat)
    requires Unclaimed(req.customData, DomainApi.NsKey(i))
    ensures DomainApi.NsKey(i) in RegisterParams(req, isoCode) <==> 1 <= i <= |req.nameservers| && i <= MaxNameservers
    ensures 1 <= i <= |req.nameservers| && i <= MaxNameservers ==>
      RegisterParams(req, isoCode)[DomainApi.NsKey(i)] == req.nameservers[i - 1]
  {
    var k := DomainApi.NsKey(i);
    var capped := Capped(req.nameservers);
    DomainApi.NsKeysExact(|capped|, i);
    DomainApi.NsKeyFacts(i, i);
    assert k[0] == k[..2][0] && k[1] == k[..2][1];
    StartsWithNs(req.domain, req.years, k);
    RegisterBaseKeys(req, k);
    AssembledBaseEntry(RegisterBase(req), req.contacts, isoCode, WithDefaults, req.customData, k);
    if 1 <= i <= |capped| {
      assert RegisterBase(req)[k] == capped[i - 1];
    }
  }

  /** Every contact field goes out under its wire key with the registration block's value, unless the custom data sets it. */
  lemma RegisterContacts(req: RegisterRequest, isoCode: string -> string, role: Role, f: Field)
    requires Unclaimed(req.customData, KeyOf(role, f))
    ensures KeyOf(role, f) in RegisterParams(req, isoCode) <==> f in Block(role, ContactOf(req.contacts, role), isoCode, WithDefaults)
    ensures f in Block(role, ContactOf(req.contacts, role), isoCode, WithDefaults) ==>
      RegisterParams(req, isoCode)[KeyOf(role, f)] == Block(role, ContactOf(req.contacts, role), isoCode, WithDefaults)[f]
  {
    KeyOfMarked(role, f);
    RegisterBaseKeys(req, KeyOf(role, f));
    AssembledContactEntry(RegisterBase(req), req.contacts, isoCode, WithDefaults, req.customData, role, f);
  }

  /** A registration sends nothing but the request keys, the `NSi` keys, contact keys and custom keys. */
  lemma RegisterKeysOnly(req: RegisterRequest, isoCode: string -> string, k: string)
    requires k in RegisterParams(req, isoCode)
    ensures k in TermParams(req.domain, req.years) || k in DomainApi.NsKeys(|Capped(req.nameservers)|)
      || IsContactKey(k) || !Unclaimed(req.customData, k)
  {
    if !IsContactKey(k) && Unclaimed(req.customData, k) {
      AssembledBaseEntry(RegisterBase(req), req.contacts, isoCode, WithDefaults, req.customData, k);
      RegisterBaseKeys(req, k);
    }
  }

  /** The status when the call fails: `0` with the error texts as an HTML list. */
  function Failure(errors: seq<string>): Status
  {
    Status("0", Some(Message("error", ErrorHtml.ErrorList(errors))))
  }

  /**
   * `registerDomain`: the parameters built step by step, the handler choice,
   * then status `1` on success or status `0` with the error list.
   */
  method RegisterDomain(req: RegisterRequest, isoCode: string -> string, ext: Option<Extension.Capabilities>, reply: Option<Reply>)
    returns (out: Outcome<Status>)
    ensures out.dispatch == Route(ext, Registering, RegisterParams(req, isoCode))
    ensures out.result.status == "1" <==> Succeeded(reply)
    ensures Succeeded(reply) ==> out.result.response.None?
    ensures !Succeeded(reply) ==> reply.Some? && reply.value.errors.Some?
    ensures !Succeeded(reply) ==> out.result.response == Some(Message("error", ErrorHtml.ErrorList(reply.value.errors.value)))
  {
    var params := TermParams(req.domain, req.years);
    params := AddNameservers(params, req.nameservers);
    params := WithContacts(params, req.contacts, isoCode, WithDefaults);
    params := WithCustomData(params, req.customData);
    var dispatch := Route(ext, Registering, params);
    if Succeeded(reply) {
      out := Outcome(dispatch, Status("1", None));
    } else {
      var html := ErrorHtml.RenderErrors(reply.value.errors.value);
      out := Outcome(dispatch, Status("0", Some(Message("error", html))));
    }
  }

  // ---------------------------------------------------------------------------
  // renewDomain, transferDomain, setDomainContacts

  /** The bare status object: `1` on success, `0` otherwise, and no response. */
  function BareStatus(reply: Option<Reply>): (s: Status)
    ensures s.status == "1" <==> Succeeded(reply)
    ensures s.status == "0" <==> !Succeeded(reply)
    ensures s.response.None?
  {
    Status(if Succeeded(reply) then "1" else "0", None)
  }

  /**
   * An `errors` element without children is still a failure: status `0`,
   * and a failed registration then reports an empty list.
   */
  lemma EmptyErrorsElementFails(rrpText: string, dns: Option<seq<string>>)
    ensures !Succeeded(Some(Reply(Some([]), rrpText, dns)))
    ensures BareStatus(Some(Reply(Some([]), rrpText, dns))) == Status("0", None)
    ensures Failure([]) == Status("0", Some(Message("error", "<ul></ul>")))
  {
    assert ErrorHtml.ErrorItems([]) == "";
    assert "<ul>" + "" + "</ul>" == "<ul></ul>";
  }

  /** `renewDomain`: the request keys alone, through the renewal handler choice. */
  function RenewDomain(d: DomainParts, years: string, ext: Option<Extension.Capabilities>, reply: Option<Reply>): (out: Outcome<Status>)
    ensures out.dispatch == Route(ext, Renewing, TermParams(d, years))
    ensures out.dispatch.ToApi? ==>
      out.dispatch.command.Keys == {"command", "SLD", "TLD", "NumYears", "IgnoreNSFail"} &&
      out.dispatch.command["command"] == "Extend" && out.dispatch.command["NumYears"] == years
    ensures out.result == BareStatus(reply)
  {
    Outcome(Route(ext, Renewing, TermParams(d, years)), BareStatus(reply))
  }

  /** A transfer request, with the host's contact lookups already made. */
  datatype TransferRequest = TransferRequest(
    domain: DomainParts, authCode: string, contacts: ContactSet, customData: Option<Params>)

  /** The request keys of a transfer: the first (and only) domain of the order, its auth code, and `UseContacts` off. */
  function TransferBase(req: TransferRequest): (p: Params)
    ensures p.Keys == {"SLD1", "TLD1", "AuthInfo1", "UseContacts"}
    ensures p["SLD1"] == req.domain.sld && p["TLD1"] == req.domain.tld && p["AuthInfo1"] == req.authCode && p["UseContacts"] == "0"
    ensures forall k :: k in p ==> !IsContactKey(k)
  {
    map["SLD1" := req.domain.sld, "TLD1" := req.domain.tld, "AuthInfo1" := req.authCode, "UseContacts" := "0"]
  }

  /** What `transferDomain` sends: contacts copied as given, then the custom data. */
  function TransferParams(req: TransferRequest, isoCode: string -> string): Params
  {
    Assemble(TransferBase(req), req.contacts, isoCode, AsGiven, req.customData)
  }

  /** The request keys reach eNom as given unless the custom data sets them; the custom data wins. */
  lemma TransferRequestEntries(req: TransferRequest, isoCode: string -> string, k: string)
    ensures req.customData.Some? && k in req.customData.value ==>
      k in TransferParams(req, isoCode) && TransferParams(req, isoCode)[k] == req.customData.value[k]
    ensures Unclaimed(req.customData, k) && k in TransferBase(req) ==>
      k in TransferParams(req, isoCode) && TransferParams(req, isoCode)[k] == TransferBase(req)[k]
  {
    if k in TransferBase(req) {
      AssembledBaseEntry(TransferBase(req), req.contacts, isoCode, AsGiven, req.customData, k);
    }
  }

  /** Every contact field goes out under its wire key with the as-given block's value, unless the custom data sets it. */
  lemma TransferContacts(req: TransferRequest, isoCode: string -> string, role: Role, f: Field)
    requires Unclaimed(req.customData, KeyOf(role, f))
    ensures KeyOf(role, f) in TransferParams(req, isoCode) <==> f in Block(role, ContactOf(req.contacts, role), isoCode, AsGiven)
    ensures f in Block(role, ContactOf(req.contacts, role), isoCode, AsGiven) ==>
      TransferParams(req, isoCode)[KeyOf(role, f)] == Block(role, ContactOf(req.contacts, role), isoCode, AsGiven)[f]
  {
    KeyOfMarked(role, f);
    AssembledContactEntry(TransferBase(req), req.contacts, isoCode, AsGiven, req.customData, role, f);
  }

  /** `transferDomain`: the transfer parameters through the transfer handler choice, and a bare status. */
  function TransferDomain(req: TransferRequest, isoCode: string -> string, ext: Option<Extension.Capabilities>, reply: Option<Reply>): (out: Outcome<Status>)
    ensures out.dispatch == Route(ext, Transferring, TransferParams(req, isoCode))
    ensures out.result == BareStatus(reply)
  {
    Outcome(Route(ext, Transferring, TransferParams(req, isoCode)), BareStatus(reply))
  }

  /** What `setDomainContacts` sends: the domain keys and the four blocks as given; no custom data. */
  function ContactUpdateParams(d: DomainParts, contacts: ContactSet, isoCode: string -> string): Params
  {
    Assemble(DomainKeys(d), contacts, isoCode, AsGiven, None)
  }

  /** The contact update names the domain as given. */
  lemma ContactUpdateDomain(d: DomainParts, contacts: ContactSet, isoCode: string -> string)
    ensures "SLD" in ContactUpdateParams(d, contacts, isoCode) && ContactUpdateParams(d, contacts, isoCode)["SLD"] == d.sld
    ensures "TLD" in ContactUpdateParams(d, contacts, isoCode) && ContactUpdateParams(d, contacts, isoCode)["TLD"] == d.tld
  {
    DomainKeysAreNoContactKeys();
    var p := DomainKeys(d);
    AssembledBaseEntry(p, contacts, isoCode, AsGiven, None, "SLD");
    AssembledBaseEntry(p, contacts, isoCode, AsGiven, None, "TLD");
  }

  lemma DomainKeysAreNoContactKeys()
    ensures !IsContactKey("SLD") && !IsContactKey("TLD")
  {
  }

  /** Every contact field goes out under its wire key exactly when the as-given block writes it, with its value. */
  lemma ContactUpdateEntries(d: DomainParts, contacts: ContactSet, isoCode: string -> string, role: Role, f: Field)
    ensures KeyOf(role, f) in ContactUpdateParams(d, contacts, isoCode) <==> f in Block(role, ContactOf(contacts, role), isoCode, AsGiven)
    ensures f in Block(role, ContactOf(contacts, role), isoCode, AsGiven) ==>
      ContactUpdateParams(d, contacts, isoCode)[KeyOf(role, f)] == Block(role, ContactOf(contacts, role), isoCode, AsGiven)[f]
  {
    KeyOfMarked(role, f);
    assert KeyOf(role, f) !in DomainKeys(d);
    AssembledContactEntry(DomainKeys(d), contacts, isoCode, AsGiven, None, role, f);
  }

  /** `setDomainContacts`: always the generic API's `Contacts` command, and a bare status. */
  function SetDomainContacts(d: DomainParts, contacts: ContactSet, isoCode: string -> string, reply: Option<Reply>): (out: Outcome<Status>)
    ensures out.dispatch.ToApi?
    ensures Extends(out.dispatch.command, ContactUpdateParams(d, contacts, isoCode), map["command" := "Contacts"])
    ensures out.result == BareStatus(reply)
  {
    Outcome(ToApi(DomainApi.SetDomainContacts(ContactUpdateParams(d, contacts, isoCode))), BareStatus(reply))
  }

  // ---------------------------------------------------------------------------
  // Operations that annotate the reply

  /** The success test on a reply that parsed. */
  predicate ReplyOk(reply: Reply)
  {
    Succeeded(Some(reply))
  }

  /** The reply with only its status set. */
  function WithStatus(reply: Reply, status: string): Annotated
  {
    Annotated(reply, status, None, None, None)
  }

  /** `setDomainLock`: the `UnlockRegistrar` flag as requested, straight to the generic API. */
  function SetDomainLock(d: DomainParts, unlocked: string, reply: Reply): (out: Outcome<Annotated>)
    ensures out.dispatch.ToApi?
    ensures Extends(out.dispatch.command, map["SLD" := d.sld, "TLD" := d.tld, "UnlockRegistrar" := unlocked], map["command" := "SetRegLock"])
    ensures out.result.reply == reply
    ensures out.result.status == "1" <==> ReplyOk(reply)
    ensures out.result.status == "1" || out.result.status == "0"
    ensures out.result.response.None? && out.result.nameservers.None? && out.result.availability.None?
  {
    var params := map["SLD" := d.sld, "TLD" := d.tld, "UnlockRegistrar" := unlocked];
    Outcome(ToApi(DomainApi.SetDomainLock(params)), WithStatus(reply, if ReplyOk(reply) then "1" else "0"))
  }

  /**
   * `getDomainAuthCode`: eNom emails the code to the owner. The status is
   * `0` either way; only a success carries the `enom_transfer_code_emailed` message.
   */
  function GetDomainAuthCode(d: DomainParts, reply: Reply): (out: Outcome<Annotated>)
    ensures out.dispatch.ToApi?
    ensures Extends(out.dispatch.command, DomainKeys(d), map["command" := "SynchAuthInfo", "EmailEPP" := "True", "RunSynchAutoInfo" := "True"])
    ensures out.result.reply == reply && out.result.status == "0"
    ensures out.result.response.Some? <==> ReplyOk(reply)
    ensures ReplyOk(reply) ==> out.result.response == Some(Message("success", "enom_transfer_code_emailed"))
  {
    var result := if ReplyOk(reply)
      then Annotated(reply, "0", Some(Message("success", "enom_transfer_code_emailed")), None, None)
      else WithStatus(reply, "0");
    Outcome(ToApi(DomainApi.SendAuthCode(DomainKeys(d))), result)
  }

  /** `getDomainNameservers`: on success the reply's `dns` entries become `nameservers`, an empty list when there are none. */
  function GetDomainNameservers(d: DomainParts, reply: Reply): (out: Outcome<Annotated>)
    ensures out.dispatch.ToApi?
    ensures Extends(out.dispatch.command, DomainKeys(d), map["command" := "GetDNS"])
    ensures out.result.reply == reply
    ensures out.result.status == "1" <==> ReplyOk(reply)
    ensures out.result.status == "1" || out.result.status == "0"
    ensures out.result.nameservers.Some? <==> ReplyOk(reply)
    ensures ReplyOk(reply) && reply.dns.Some? ==> out.result.nameservers == reply.dns
    ensures ReplyOk(reply) && reply.dns.None? ==> out.result.nameservers == Some([])
  {
    var result := if ReplyOk(reply)
      then Annotated(reply, "1", None, Some(if reply.dns.Some? then reply.dns.value else []), None)
      else WithStatus(reply, "0");
    Outcome(ToApi(DomainApi.GetNameservers(DomainKeys(d))), result)
  }

  /** `setDomainNameservers`: every requested nameserver, with no cap, through the API's `ModifyNS` builder. */
  function SetDomainNameservers(d: DomainParts, ns: seq<string>, reply: Reply): (out: Outcome<Annotated>)
    ensures out.dispatch.ToApi?
    ensures out.dispatch.command == DomainApi.ModifyNsParams(DomainKeys(d), ns)
    ensures out.result.reply == reply
    ensures out.result.status == "1" <==> ReplyOk(reply)
    ensures out.result.status == "1" || out.result.status == "0"
  {
    Outcome(ToApi(DomainApi.ModifyNsParams(DomainKeys(d), ns)), WithStatus(reply, if ReplyOk(reply) then "1" else "0"))
  }

  /** Unlike a registration, a nameserver update sends every listed nameserver, and the domain keys as given. */
  lemma NameserverUpdateSendsAll(d: DomainParts, ns: seq<string>, reply: Reply, i: nat)
    requires 1 <= i <= |ns|
    ensures var c := SetDomainNameservers(d, ns, reply).dispatch.command;
      DomainApi.NsKey(i) in c && c[DomainApi.NsKey(i)] == ns[i - 1] && c["SLD"] == d.sld && c["TLD"] == d.tld
  {
    var c := SetDomainNameservers(d, ns, reply).dispatch.command;
    DomainApi.NsKeysShape(|ns|);
    assert "SLD" !in DomainApi.NsKeys(|ns|) && "TLD" !in DomainApi.NsKeys(|ns|);
  }

  /** The availability token for the reply's `RRPText`. */
  function AvailabilityOf(rrpText: string): (a: string)
    ensures a == "available" <==> rrpText == "Domain available"
    ensures a == "registered" <==> rrpText == "Domain not available"
    ensures a == "unknown" <==> rrpText != "Domain available" && rrpText != "Domain not available"
  {
    if rrpText == "Domain available" then "available"
    else if rrpText == "Domain not available" then "registered"
    else "unknown"
  }

  /** `domainAvailability`: a `Check` of the domain; on success status `1` with the availability token. */
  function DomainAvailability(d: DomainParts, reply: Reply): (out: Outcome<Annotated>)
    ensures out.dispatch.ToApi?
    ensures Extends(out.dispatch.command, DomainKeys(d), map["command" := "Check"])
    ensures out.result.reply == reply
    ensures out.result.status == "1" <==> ReplyOk(reply)
    ensures out.result.status == "1" || out.result.status == "0"
    ensures out.result.availability.Some? <==> ReplyOk(reply)
    ensures ReplyOk(reply) ==> out.result.availability == Some(AvailabilityOf(reply.rrpText))
  {
    var result := if ReplyOk(reply)
      then Annotated(reply, "1", None, None, Some(AvailabilityOf(reply.rrpText)))
      else WithStatus(reply, "0");
    Outcome(ToApi(DomainApi.DomainAvailability(DomainKeys(d))), result)
  }
}
