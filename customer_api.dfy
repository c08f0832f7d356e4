/**
 * Customer and contact parameter building: the contact profile a domain
 * needs, the derived login handle of a new sub-account, the sub-account
 * request and the contact request with its optional address lines and
 * TLD-specific extras.
 */
module CustomerApi {
  import opened Wrappers
  import opened PhpArray
  import Text
  import Wire

  /** The host's client record, as far as these requests read it. */
  datatype Client = Client(
    firstName: string,
    lastName: string,
    company: string,
    email: string,
    address1: string,
    address2: string,
    address3: string,
    city: string,
    postcode: string,
    country: string)

  /** A parsed telephone number: country calling code and national number. */
  datatype Phone = Phone(cc: string, number: string)

  // ---------------------------------------------------------------------------
  // Contact profiles

  /** The TLD labels that have a profile of their own. */
  predicate HasProfile(tag: string)
  {
    tag in {"at", "ca", "cn", "co", "coop", "de", "es", "eu", "ni", "ru", "uk"}
  }

  /** The tag after the last dot of the lower-cased name. */
  function ContactLabel(domain: string): string
  {
    Text.LastPart(Text.Lower(domain), '.')
  }

  /**
   * `contactType`: `Contact`, prefixed by the capitalised label when the
   * label has a profile of its own.
   */
  function ContactType(domain: string): string
  {
    var tag := ContactLabel(domain);
    if HasProfile(tag) then Text.UcFirst(tag) + "Contact" else "Contact"
  }

  /**
   * The profile always ends in `Contact`; it is exactly `Contact` when the
   * label has no profile, and otherwise it starts with a capital and its
   * prefix lower-cased gives the label back.
   */
  lemma ContactTypeMeaning(domain: string)
    ensures var t := ContactType(domain);
      && |t| >= 7 && t[|t| - 7..] == "Contact"
      && (t == "Contact" <==> !HasProfile(ContactLabel(domain)))
      && (t != "Contact" ==> Text.IsUpperAscii(t[0]) && Text.Lower(t[..|t| - 7]) == ContactLabel(domain))
  {
    var tag := ContactLabel(domain);
    if HasProfile(tag) {
      ProfiledLabelFacts(tag);
      Text.LowerUcFirst(tag);
      var t := Text.UcFirst(tag) + "Contact";
      assert t[..|t| - 7] == Text.UcFirst(tag);
    }
  }

  /** Every profiled label is a non-empty run of small letters. */
  lemma ProfiledLabelFacts(tag: string)
    requires HasProfile(tag)
    ensures |tag| >= 2 && forall i :: 0 <= i < |tag| ==> Text.IsLowerAscii(tag[i])
  {
    if tag == "coop" {
    } else {
      assert |tag| == 2;
    }
  }

  /** The profile does not depend on the case of the name. */
  lemma ContactTypeIgnoresCase(domain: string)
    ensures ContactType(Text.Lower(domain)) == ContactType(domain)
  {
    Text.LowerIdempotent(domain);
  }

  /** Any name ending in a profiled tag gets that tag's profile, whatever comes before the last dot. */
  lemma ContactTypeOfLabel(sld: string, tag: string)
    requires HasProfile(tag)
    ensures ContactType(sld + "." + tag) == Text.UcFirst(tag) + "Contact"
  {
    ProfiledLabelFacts(tag);
    var domain := sld + "." + tag;
    Text.LowerAppend(sld + ".", tag);
    Text.LowerAppend(sld, ".");
    assert Text.Lower(".") == ".";
    Text.LowerOfLower(tag);
    assert Text.Lower(domain) == Text.Lower(sld) + ['.'] + tag;
    Text.LastPartOfSuffix(Text.Lower(sld), '.', tag);
    assert ContactLabel(domain) == tag;
  }

  /** A `.uk` name gets `UkContact` (not `ContactUk`). */
  lemma ContactTypeOfUk(sld: string)
    ensures ContactType(sld + ".uk") == "UkContact"
  {
    assert HasProfile("uk");
    assert Text.UcFirst("uk") == "Uk" by {
      assert Text.UpperChar('u') == 'U';
    }
    ContactTypeOfLabel(sld, "uk");
    assert sld + "." + "uk" == sld + ".uk";
  }

  /** Every `.com` name gets the plain profile. */
  lemma ContactTypeOfCom(sld: string)
    ensures ContactType(sld + ".com") == "Contact"
  {
    ComHasNoProfile();
    var domain := sld + ".com";
    assert domain == sld + "." + "com";
    Text.LowerAppend(sld + ".", "com");
    Text.LowerAppend(sld, ".");
    assert Text.Lower(".") == ".";
    Text.LowerOfLower("com");
    assert Text.Lower(domain) == Text.Lower(sld) + ['.'] + "com";
    Text.LastPartOfSuffix(Text.Lower(sld), '.', "com");
    assert ContactLabel(domain) == "com";
  }

  lemma ComHasNoProfile()
    ensures !HasProfile("com")
  {
  }

  // ---------------------------------------------------------------------------
  // Login handles

  /** The letters-only stem of a handle: first initial and last name, letters kept, at most 16. */
  function UidStem(firstName: string, lastName: string): (stem: string)
    ensures |stem| <= 16
    ensures forall i :: 0 <= i < |stem| ==> Text.IsAsciiLetter(stem[i])
  {
    var letters := Text.KeepLetters(Text.Take(firstName, 1) + lastName);
    if |letters| > 16 then Text.Take(letters, 16) else letters
  }

  /**
   * Which letters the stem holds: the letters of the first name's initial,
   * then those of the last name, in order, cut to the first 16.
   */
  lemma UidStemIsLetterPrefix(firstName: string, lastName: string)
    ensures var letters := Text.KeepLetters(Text.Take(firstName, 1)) + Text.KeepLetters(lastName);
      |UidStem(firstName, lastName)| == (if |letters| <= 16 then |letters| else 16) &&
      UidStem(firstName, lastName) == letters[..|UidStem(firstName, lastName)|]
  {
    Text.KeepLettersAppend(Text.Take(firstName, 1), lastName);
  }

  /** A letters-only name longer than 16 letters keeps its first 16. */
  lemma UidStemTruncates(firstName: string, lastName: string)
    requires firstName != [] && Text.IsAsciiLetter(firstName[0])
    requires forall i :: 0 <= i < |lastName| ==> Text.IsAsciiLetter(lastName[i])
    requires |lastName| >= 16
    ensures UidStem(firstName, lastName) == ([firstName[0]] + lastName)[..16]
  {
    var raw := Text.Take(firstName, 1) + lastName;
    assert raw == [firstName[0]] + lastName;
    Text.KeepLettersOfLetters(raw);
  }

  /** A character of the last name that is not a letter leaves no trace in the stem. */
  lemma UidStemSkipsNonLetter(firstName: string, front: string, c: char, back: string)
    requires !Text.IsAsciiLetter(c)
    ensures UidStem(firstName, front + [c] + back) == UidStem(firstName, front + back)
  {
    var initial := Text.Take(firstName, 1);
    assert initial + (front + [c] + back) == (initial + front) + ([c] + back);
    assert initial + (front + back) == (initial + front) + back;
    Text.KeepLettersAppend(initial + front, [c] + back);
    Text.KeepLettersAppend([c], back);
    Text.KeepLettersOne(c);
    Text.KeepLettersAppend(initial + front, back);
  }

  /** An initial that is not a letter is dropped: the stem is then the last name's letters alone. */
  lemma UidStemDropsNonLetterInitial(firstName: string, lastName: string)
    requires firstName != [] && !Text.IsAsciiLetter(firstName[0])
    ensures UidStem(firstName, lastName) == UidStem("", lastName)
  {
    assert Text.Take(firstName, 1) == [firstName[0]];
    Text.KeepLettersAppend([firstName[0]], lastName);
    Text.KeepLettersOne(firstName[0]);
    assert Text.Take("", 1) + lastName == lastName;
  }

  /**
   * `generateUid` as evidently intended: the stem followed by the four-digit
   * random `suffix` (drawn from 1000..9999 by the host).
   */
  function GenerateUid(firstName: string, lastName: string, suffix: nat): (uid: string)
    requires 1000 <= suffix <= 9999
    ensures 4 <= |uid| <= 20
    ensures forall i :: 0 <= i < |uid| - 4 ==> Text.IsAsciiLetter(uid[i])
    ensures forall i :: |uid| - 4 <= i < |uid| ==> Text.IsDigit(uid[i])
    ensures uid[|uid| - 4..] == Text.NatToString(suffix)
  {
    Text.FourDigits(suffix);
    var stem := UidStem(firstName, lastName);
    var uid := stem + Text.NatToString(suffix);
    assert uid[|stem|..] == Text.NatToString(suffix);
    uid
  }

  /** The same names with different random suffixes never give the same handle. */
  lemma GenerateUidSeparatesSuffixes(firstName: string, lastName: string, a: nat, b: nat)
    requires 1000 <= a <= 9999 && 1000 <= b <= 9999
    requires GenerateUid(firstName, lastName, a) == GenerateUid(firstName, lastName, b)
    ensures a == b
  {
    Text.NatToStringInjective(a, b);
  }

  /** For a plain letters-only name that fits, the handle is initial, last name, digits. */
  lemma GenerateUidOfPlainName(firstName: string, lastName: string, suffix: nat)
    requires 1000 <= suffix <= 9999
    requires firstName != [] && Text.IsAsciiLetter(firstName[0])
    requires forall i :: 0 <= i < |lastName| ==> Text.IsAsciiLetter(lastName[i])
    requires |lastName| < 16
    ensures GenerateUid(firstName, lastName, suffix) == [firstName[0]] + lastName + Text.NatToString(suffix)
  {
    var raw := Text.Take(firstName, 1) + lastName;
    assert raw == [firstName[0]] + lastName;
    Text.KeepLettersOfLetters(raw);
  }

  /** `generateUid` as written: it computes the handle but has no `return`, so the caller gets null. */
  function GenerateUidAsWritten(firstName: string, lastName: string, suffix: nat): (uid: Option<string>)
    requires 1000 <= suffix <= 9999
    ensures uid.None?
  {
    None
  }

  /** The handle the caller receives is lost although a non-empty one was computed. */
  lemma GenerateUidAsWrittenDropsHandle(firstName: string, lastName: string, suffix: nat)
    requires 1000 <= suffix <= 9999
    ensures GenerateUidAsWritten(firstName, lastName, suffix) != Some(GenerateUid(firstName, lastName, suffix))
  {
  }

  // ---------------------------------------------------------------------------
  // Sub-account request

  /** The phone format of the registrar: `+cc.number`. */
  function PhoneString(phone: Phone): (s: string)
    ensures |s| == |phone.cc| + |phone.number| + 2 && s[0] == '+'
  {
    "+" + phone.cc + "." + phone.number
  }

  /** The calling code and national number can be read back when the code holds no dot. */
  lemma PhoneStringSplits(phone: Phone)
    requires '.' !in phone.cc
    ensures Text.SplitFirst(PhoneString(phone)[1..], '.') == [phone.cc, phone.number]
  {
    assert PhoneString(phone)[1..] == phone.cc + ['.'] + phone.number;
    Text.SplitFirstUnique(PhoneString(phone)[1..], '.', phone.cc, phone.number);
  }

  /**
   * The parameters of `createCustomer`. `password` is the host's random
   * 15-character string, `uid` the login handle. The country is sent by
   * name, as stored on the client.
   */
  function CreateCustomerParams(client: Client, phone: Phone, password: string, uid: string): (p: Params)
    ensures p.Keys == {"command", "newuid", "newpw", "confirmpw", "RegistrantOrganizationName",
      "RegistrantFirstName", "RegistrantLastName", "RegistrantAddress1", "RegistrantCity",
      "RegistrantPostalCode", "RegistrantCountry", "RegistrantPhone"}
    ensures p["command"] == "CreateSubAccount"
    ensures p["newpw"] == password && p["confirmpw"] == password
    ensures p["newuid"] == uid
    ensures p["RegistrantOrganizationName"] == (if client.company != "" then client.company else "None")
    ensures p["RegistrantOrganizationName"] != ""
    ensures p["RegistrantFirstName"] == client.firstName && p["RegistrantLastName"] == client.lastName
    ensures p["RegistrantAddress1"] == client.address1 && p["RegistrantCity"] == client.city
    ensures p["RegistrantPostalCode"] == client.postcode && p["RegistrantCountry"] == client.country
    ensures p["RegistrantPhone"] == PhoneString(phone)
  {
    map[
      "command" := "CreateSubAccount",
      "newuid" := uid,
      "newpw" := password,
      "confirmpw" := password,
      "RegistrantOrganizationName" := (if client.company != "" then client.company else "None"),
      "RegistrantFirstName" := client.firstName,
      "RegistrantLastName" := client.lastName,
      "RegistrantAddress1" := client.address1,
      "RegistrantCity" := client.city,
      "RegistrantPostalCode" := client.postcode,
      "RegistrantCountry" := client.country,
      "RegistrantPhone" := PhoneString(phone)]
  }

  /**
   * With the handle `generateUid` is meant to give, the new sub-account's
   * login is a letters-only stem followed by the four random digits.
   */
  lemma NewCustomerHandle(client: Client, phone: Phone, password: string, suffix: nat)
    requires 1000 <= suffix <= 9999
    ensures var uid := CreateCustomerParams(client, phone, password, GenerateUid(client.firstName, client.lastName, suffix))["newuid"];
      && 4 <= |uid| <= 20
      && uid[|uid| - 4..] == Text.NatToString(suffix)
      && forall i :: 0 <= i < |uid| - 4 ==> Text.IsAsciiLetter(uid[i])
  {
  }

  // ---------------------------------------------------------------------------
  // Contact request

  /**
   * The argument array of `createContact`: its scalar entries (`client_id`,
   * `customer_id`, `domain`, ...) and the optional TLD-specific extras.
   */
  datatype ContactRequest = ContactRequest(fields: Params, domainContactParams: Option<Params>)

  /** The customer id: the caller's `customer_id` when set, otherwise the email lookup's. */
  function CustomerIdFor(request: ContactRequest, lookedUp: string): (id: string)
    ensures "customer_id" in request.fields ==> id == request.fields["customer_id"]
    ensures "customer_id" !in request.fields ==> id == lookedUp
  {
    if "customer_id" in request.fields then request.fields["customer_id"] else lookedUp
  }

  /**
   * The sub-account flow stores its id under `customer-id` (hyphen), which is
   * never the key that is checked, so the contact it creates always falls back to the lookup.
   */
  lemma HyphenatedIdIsIgnored(request: ContactRequest, id: string, lookedUp: string)
    requires "customer_id" !in request.fields
    ensures CustomerIdFor(request.(fields := request.fields["customer-id" := id]), lookedUp) == lookedUp
  {
    assert "customer-id" != "customer_id";
  }

  /** The keys of the contact fields that are always sent. */
  predicate IsFixedContactKey(k: string)
  {
    k in {"name", "company", "email", "address-line-1", "city", "country", "zipcode", "phone-cc", "phone", "customer-id", "type"}
  }

  /** The optional address keys differ from each other and from every fixed key. */
  lemma AddressKeysAreNew()
    ensures !IsFixedContactKey("address-line-2") && !IsFixedContactKey("address-line-3")
    ensures "address-line-2" != "address-line-3"
  {
    assert "address-line-2"[13] == '2' && "address-line-3"[13] == '3' && "address-line-1"[13] == '1';
  }

  /**
   * The contact fields that are always sent; `contactType` is the profile
   * `contactType` gives for the request's domain.
   */
  function ContactFixed(client: Client, iso: string, phone: Phone, customerId: string, contactType: string): (p: Params)
    ensures p.Keys == {"name", "company", "email", "address-line-1", "city", "country", "zipcode", "phone-cc", "phone", "customer-id", "type"}
    ensures p["name"] == client.firstName + " " + client.lastName
    ensures p["company"] == (if client.company != "" then client.company else "Not Applicable")
    ensures p["email"] == client.email && p["address-line-1"] == client.address1 && p["city"] == client.city
    ensures p["country"] == iso && p["zipcode"] == client.postcode
    ensures p["phone-cc"] == phone.cc && p["phone"] == phone.number
    ensures p["customer-id"] == customerId && p["type"] == contactType
  {
    map[
      "name" := client.firstName + " " + client.lastName,
      "company" := (if client.company != "" then client.company else "Not Applicable"),
      "email" := client.email,
      "address-line-1" := client.address1,
      "city" := client.city,
      "country" := iso,
      "zipcode" := client.postcode,
      "phone-cc" := phone.cc,
      "phone" := phone.number,
      "customer-id" := customerId,
      "type" := contactType]
  }

  /** `fixed` with each further address line added exactly when it is filled in. */
  function WithAddressLines(fixed: Params, line2: string, line3: string): (p: Params)
    ensures p.Keys == fixed.Keys
      + (if line2 != "" then {"address-line-2"} else {})
      + (if line3 != "" then {"address-line-3"} else {})
    ensures line2 != "" ==> p["address-line-2"] == line2
    ensures line3 != "" ==> p["address-line-3"] == line3
    ensures forall k :: k in fixed && k != "address-line-2" && k != "address-line-3" ==> p[k] == fixed[k]
  {
    var withLine2 := if line2 != "" then fixed["address-line-2" := line2] else fixed;
    if line3 != "" then withLine2["address-line-3" := line3] else withLine2
  }

  /** Neither optional address key is one of the fixed contact fields. */
  lemma AddressLinesAreNotFixed(client: Client, iso: string, phone: Phone, customerId: string, contactType: string)
    ensures "address-line-2" !in ContactFixed(client, iso, phone, customerId, contactType)
    ensures "address-line-3" !in ContactFixed(client, iso, phone, customerId, contactType)
  {
    AddressKeysAreNew();
  }

  /** The contact's own fields: the fixed ones, and each further address line exactly when it is filled in. */
  function ContactBase(client: Client, iso: string, phone: Phone, customerId: string, contactType: string): (p: Params)
    ensures p.Keys == ContactFixed(client, iso, phone, customerId, contactType).Keys
      + (if client.address2 != "" then {"address-line-2"} else {})
      + (if client.address3 != "" then {"address-line-3"} else {})
    ensures "address-line-2" in p <==> client.address2 != ""
    ensures "address-line-3" in p <==> client.address3 != ""
    ensures client.address2 != "" ==> p["address-line-2"] == client.address2
    ensures client.address3 != "" ==> p["address-line-3"] == client.address3
    ensures var fixed := ContactFixed(client, iso, phone, customerId, contactType);
      forall k :: k in fixed ==> p[k] == fixed[k]
  {
    AddressLinesAreNotFixed(client, iso, phone, customerId, contactType);
    WithAddressLines(ContactFixed(client, iso, phone, customerId, contactType), client.address2, client.address3)
  }

  /**
   * The contact parameters: the extras are joined with PHP `+`, so an extra
   * never replaces one of the contact's own fields and only adds new keys.
   */
  function ContactParams(client: Client, iso: string, phone: Phone, customerId: string, contactType: string,
                         extras: Option<Params>): (p: Params)
    ensures var base := ContactBase(client, iso, phone, customerId, contactType);
      && p.Keys == base.Keys + extras.GetOr(map[]).Keys
      && (forall k :: k in base ==> p[k] == base[k])
      && (forall k :: k in extras.GetOr(map[]) && k !in base ==> p[k] == extras.GetOr(map[])[k])
  {
    var base := ContactBase(client, iso, phone, customerId, contactType);
    if extras.Some? then Union(base, extras.value) else base
  }

  /** The part of the registrar's reply that the flow reads. */
  datatype PostReply = PostReply(status: Option<string>, message: string)

  datatype ContactOutcome = Failed(message: string) | Created(reply: PostReply)

  /**
   * `createContact`: builds the parameter array step by step, posts it, and
   * hands back the reply's message when the reply's status is `ERROR`.
   * `lookedUp` is the id the email lookup would give, `iso` the client's
   * country code, `phone` the parsed number, `reply` the parsed response.
   */
  method CreateContact(api: Wire.EnomApi, request: ContactRequest, client: Client, iso: string, phone: Phone,
                       lookedUp: string, reply: PostReply)
    returns (sent: Wire.WireRequest, outcome: ContactOutcome)
    requires api.Valid()
    ensures sent.verb == Wire.POST && sent.url == api.baseUrl
    ensures sent.params == Union(api.globalParams,
      ContactParams(client, iso, phone, CustomerIdFor(request, lookedUp), ContactType(Field(request.fields, "domain")),
                    request.domainContactParams))
    ensures outcome.Failed? <==> reply.status == Some("ERROR")
    ensures outcome.Failed? ==> outcome.message == reply.message
    ensures outcome.Created? ==> outcome.reply == reply
  {
    var customerId;
    if "customer_id" !in request.fields {
      customerId := lookedUp;
    } else {
      customerId := request.fields["customer_id"];
    }
    var domain := Field(request.fields, "domain");
    var contactType := ContactType(domain);
    var fixed := ContactFixed(client, iso, phone, customerId, contactType);
    var contactParams := WithAddressLines(fixed, client.address2, client.address3);
    if request.domainContactParams.Some? {
      contactParams := Union(contactParams, request.domainContactParams.value);
    }
    sent := api.Post("/contacts/add.json", contactParams);
    if reply.status.Some? && reply.status.value == "ERROR" {
      outcome := Failed(reply.message);
    } else {
      outcome := Created(reply);
    }
  }

  /** The parameters of `getDefaultContact`: the profile for the domain and the customer id, nothing else. */
  function DefaultContactParams(customerId: string, domain: string): (p: Params)
    ensures p.Keys == {"type", "customer-id"}
    ensures p["type"] == ContactType(domain) && p["customer-id"] == customerId
  {
    map["type" := ContactType(domain), "customer-id" := customerId]
  }
}
