# eNom registrar adapter — a Dafny model

This is a model of the eNom registrar adapter of a hosting-billing host. The
adapter turns the host's domain requests (register, renew, transfer, lock,
auth code, nameservers, contacts, availability) into eNom's flat
`command=` parameter sets, sends them through a small wire client, and turns
the replies into the status objects the host expects.

The model has these parts, one Dafny module each:
- **`Wire`**: the wire client. The constructor picks the endpoint and fixes the credential parameters. `Get`/`Post` join those credentials onto every request with PHP `+`. `GetTld` is the client's TLD helper.
- **`PhpArray`**: the two ways PHP combines parameter arrays, written out. `+` is a left-biased union (`Union`) and `array_merge` is right-biased (`Merge`). It also has the "unset reads as empty" lookup (`Field`).
- **`Text`**: the byte-string built-ins the adapter relies on — `strtolower`, `ucfirst`, `explode`, `end`, `rtrim` with a character mask, `substr`, the letters-only `preg_replace`, `implode`, and decimal rendering.
- **`DomainApi`**:
  - the domain-name split and the command builders of the domain API;
  - the expansion of a nameserver list into `NS1..NSn`;
  - the `syncDomain` reconciliation, which derives the nameserver text, the lock flag, the defaulted contact ids and the audit text, or writes nothing.
- **`CustomerApi`**: the contact profile of a domain (`contactType`), the login handle of a new sub-account (`generateUid`), and the parameters of `createCustomer`, `createContact` and `getDefaultContact`.
- **`Extension`, `AsiaHandler`, `AsiaCountries`, `AsiaRouting`**:
  - what the facade asks of a TLD's extension class;
  - the `.asia` class: its three handler flags, the declaration attributes, the pass-through of registration data, and its country list;
  - the fact that `.asia` always goes to the generic API.
- **`ErrorHtml`**: the `<ul><li>…</li></ul>` error list of a failed registration.
- **`Registrar`**: the facade.
  - It projects the four contacts into role-prefixed keys.
  - It caps a registration at twelve nameservers and merges the custom data last.
  - It chooses between the extension class and the generic API.
  - It classifies the reply and maps availability texts to tokens.

Where PHP versions differ, the model follows PHP 7: `count` of a non-countable value, and assigning an object to a property of a parsed XML reply, behave as they do there. `strtolower` and `ucfirst` are ASCII-only, as they are under the default C locale and, from PHP 8.2 on, under every locale.

**Collaborators are parameters:**
- The parsed reply of each call becomes a `Reply` or `PostReply` value. For register, renew, transfer and contact updates it is an `Option<Reply>`, where `None` is a reply that did not parse.
- A call succeeds exactly when its reply has no `errors` element (`Registrar.Succeeded`). An empty `errors` element is a failure too, because `count` counts the `errors` elements, not their children. A reply that did not parse has no `errors` and so counts as a success, as in the code.
- These functions of the host are caller-supplied values or functions:
  - the host's SLD/TLD split of a request's domain;
  - its contact lookup (the contact records);
  - its ISO country-code lookup (`isoCode`);
  - its extension-class loader (`Option<Extension.Capabilities>`);
  - phone parsing (`Phone`);
  - date conversion (`toDate`, `invoiceDate`);
  - the random password and the random four-digit handle suffix.
- The database rows `syncDomain` reads become `DomainRecord` and `Purchase`. The writes it would make come back as a `SyncWrite`.

**The model follows the code where the code differs from its comments:**
- The `contactType` comment (libraries/api/customer.php:158) promises `ContactUk` for a `.uk` name. The code gives `UkContact`, and `CustomerApi.ContactTypeOfUk` proves that.
- The constructor reads the sandbox setting and then overwrites it with `'1'` (libraries/api/enom_api.php:33). The model keeps that: the client always talks to the sandbox endpoint.
- `generateUid` is documented to return the handle but has no `return`. See "## Findings".

## Model

| member | source | states |
|---|---|---|
| Wire.EnomApi.constructor | libraries/api/enom_api.php:26-50 | whatever the configured sandbox setting, the client uses the sandbox endpoint with `sandbox` on; the credential parameters are exactly `uid`, `pw` and `responsetype=xml`, with the configured reseller id and password |
| Wire.EnomApi.Get | libraries/api/enom_api.php:76-80 | a GET to the configured endpoint whose parameters are the credentials joined with PHP `+`: the three credential keys keep the client's values, and every other caller key passes through unchanged |
| Wire.EnomApi.Post | libraries/api/enom_api.php:91-95 | the same left-biased union as a POST to the configured endpoint; the path argument has no effect on the request |
| Wire.GetTld | libraries/api/enom_api.php:59-65 | a dot followed by exactly what comes after the first dot of the name, case kept; without a dot just `"."` |
| PhpArray.Union | libraries/api/enom_api.php:78 | PHP `a + b`: all keys of both operands, and on a shared key the left operand's value |
| PhpArray.Merge | libraries/enom.php:239 | `array_merge` on string keys: all keys of both operands, and on a shared key the right operand's value |
| Text.Lower | libraries/api/domain.php:430 | `strtolower`: the same length, each ASCII capital lowered, every other byte unchanged |
| Text.SplitFirst | libraries/api/domain.php:432 | `explode` with limit 2: one part exactly when there is no separator; otherwise a separator-free head and a tail that rebuild the input around the first separator |
| Text.SplitFirstUnique | libraries/api/domain.php:432 | the split at the first separator is the only split into a separator-free head, the separator and a tail |
| Text.LastPart | libraries/api/customer.php:167-168 | `end(explode(...))`: the separator-free suffix after the last separator, or the whole text when it has none |
| Text.RTrim | libraries/api/domain.php:348 | `rtrim` with a character mask: the longest prefix that does not end in a mask character; everything cut is in the mask |
| Text.KeepLetters | libraries/api/customer.php:231 | the letters-only replacement: no longer than the input, only ASCII letters, and every letter of the input is kept |
| Text.KeepLettersAppend | libraries/api/customer.php:231 | the replacement of a concatenation is the two parts' replacements in order, so letters keep their order and number |
| Text.KeepLettersOne | libraries/api/customer.php:231 | a single character is kept exactly when it is an ASCII letter |
| Text.NatToStringInjective | libraries/api/domain.php:221 | distinct numbers render differently, so the `NSi` keys never collide |
| DomainApi.SplitDomain | libraries/api/domain.php:428-434 | one or two parts; one part, the lower-cased name, exactly when there is no dot; otherwise a dot-free first part and a second part that rebuild the lower-cased name |
| DomainApi.SplitDomainJoins | libraries/api/domain.php:428-434 | the parts joined with `.` give back the lower-cased name |
| DomainApi.SplitDomainAtFirstDot | libraries/api/domain.php:432 | a name with further dots keeps them all in the second part (`a.b.co.uk` gives `a` and `b.co.uk`) |
| DomainApi.DomainTld | libraries/api/domain.php:419-426 | what follows the first dot of the lower-cased name, or the whole lower-cased name without a dot |
| DomainApi.DomainQuery | libraries/api/domain.php:19-94 | the read-only lookups send exactly `command`, `sld` and `tld`, with `sld` and `tld` rebuilding the lower-cased name |
| DomainApi.DomainStatus | libraries/api/domain.php:19-30 | exactly `command=GetDomainStatus`, `sld` and `tld`: the lower-cased name split at its first dot, with a dot-free `sld`, or the whole name as `sld` and an empty `tld` when there is no dot |
| DomainApi.DomainInfo | libraries/api/domain.php:41-52 | exactly `command=GetDomainInfo`, `sld` and `tld`: the lower-cased name split at its first dot, with a dot-free `sld`, or the whole name as `sld` and an empty `tld` when there is no dot |
| DomainApi.DomainLockStatus | libraries/api/domain.php:62-73 | exactly `command=GetRegLock`, `sld` and `tld`: the lower-cased name split at its first dot, with a dot-free `sld`, or the whole name as `sld` and an empty `tld` when there is no dot |
| DomainApi.DomainContacts | libraries/api/domain.php:83-94 | exactly `command=GetContacts`, `sld` and `tld`: the lower-cased name split at its first dot, with a dot-free `sld`, or the whole name as `sld` and an empty `tld` when there is no dot |
| DomainApi.DomainExtensionAttributes | libraries/api/domain.php:134-142 | exactly `command=GetExtAttributes` and the given `tld` |
| DomainApi.SetDomainContacts | libraries/api/domain.php:104-109 | the caller's keys plus `command=Contacts`, nothing else changed |
| DomainApi.DomainAvailability | libraries/api/domain.php:119-124 | the caller's keys plus `command=Check`, nothing else changed |
| DomainApi.RegisterDomain | libraries/api/domain.php:153-157 | the caller's keys plus `command=Purchase`, nothing else changed |
| DomainApi.RenewDomain | libraries/api/domain.php:167-172 | the caller's keys plus `command=Extend`, nothing else changed |
| DomainApi.TransferDomain | libraries/api/domain.php:183-190 | the caller's keys plus `command=TP_CreateOrder`, `OrderType=Autoverification`, `DomainCount=1`, nothing else changed |
| DomainApi.GetNameservers | libraries/api/domain.php:200-205 | the caller's keys plus `command=GetDNS`, nothing else changed |
| DomainApi.SetDomainLock | libraries/api/domain.php:237-242 | the caller's keys plus `command=SetRegLock`, nothing else changed |
| DomainApi.SendAuthCode | libraries/api/domain.php:252-259 | the caller's keys plus `command=SynchAuthInfo`, `EmailEPP=True`, `RunSynchAutoInfo=True`, nothing else changed |
| DomainApi.NsKeysExact | libraries/api/domain.php:219-223 | `NSi` is among the keys written for n nameservers exactly when 1 ≤ i ≤ n |
| DomainApi.NsParams | libraries/api/domain.php:219-223 | the keys are exactly `NS1..NSn`, and `NSi` holds the i-th nameserver |
| DomainApi.ModifyNsParams | libraries/api/domain.php:215-227 | the `NS` list entry removed, `command=ModifyNS`, every listed nameserver as `NSi` in order with no cap, and every other caller key unchanged |
| DomainApi.SetNameservers | libraries/api/domain.php:215-227 | the counter loop sends exactly `ModifyNsParams` of the request and its list |
| DomainApi.SyncDomain | libraries/api/domain.php:329-409 | writes nothing unless sync is on; calls for the domain info exactly when none was given; writes nothing when there is no info or it reports no nameserver count; otherwise updates the record's dates, nameserver text, lock flag and audit text; updates the purchase's renewal and invoice dates exactly when the invoice date can be computed, and leaves the purchase unwritten otherwise; nothing else |
| DomainApi.CollectNameservers | libraries/api/domain.php:343-348 | the loop's result is `ns1..nsN`, each followed by `, `, then `rtrim`med |
| DomainApi.SyncedNameserversAreJoined | libraries/api/domain.php:343-348 | the stored text is the nameservers joined by `, ` whenever the last one is non-empty and does not end in `,` or space |
| DomainApi.SyncedNameserversNone | libraries/api/domain.php:344 | a reported count below one stores an empty text |
| DomainApi.SyncedNameserversDropsEmptyTail | libraries/api/domain.php:348 | `rtrim` strips characters, not a suffix: nameservers `a` and `` are stored as `a` |
| DomainApi.ReadLockFlag | libraries/api/domain.php:349-357 | `1` exactly when some order status is `transferlock` or `customerlock`, otherwise `0` |
| DomainApi.DefaultContacts | libraries/api/domain.php:362-375 | each missing admin, billing or tech contact gets id `0`; present contacts and the registrant are untouched |
| CustomerApi.ContactTypeMeaning | libraries/api/customer.php:163-176 | the profile ends in `Contact`; it is exactly `Contact` when the last label has no profile, and otherwise starts with a capital and lower-cases back to the label |
| CustomerApi.ContactTypeIgnoresCase | libraries/api/customer.php:166 | the profile does not depend on the case of the name |
| CustomerApi.ContactTypeOfLabel | libraries/api/customer.php:163-176 | any name ending in a profiled label gets `ucfirst(label)` + `Contact`, whatever precedes the last dot |
| CustomerApi.ContactTypeOfUk | libraries/api/customer.php:170-174 | a `.uk` name gets `UkContact` |
| CustomerApi.ContactTypeOfCom | libraries/api/customer.php:170-175 | every name ending in `.com` gets the plain `Contact` |
| CustomerApi.UidStem | libraries/api/customer.php:228-235 | at most 16 characters, all ASCII letters |
| CustomerApi.UidStemIsLetterPrefix | libraries/api/customer.php:228-235 | the stem is the letters of the first name's initial then of the last name, in order, cut to the first 16 |
| CustomerApi.UidStemTruncates | libraries/api/customer.php:233-235 | a letters-only name with a last name of 16 or more letters keeps exactly the first 16 of initial plus last name |
| CustomerApi.UidStemSkipsNonLetter | libraries/api/customer.php:231 | a non-letter anywhere in the last name does not change the stem |
| CustomerApi.UidStemDropsNonLetterInitial | libraries/api/customer.php:228-231 | a first name starting with a non-letter contributes nothing: the stem is the last name's alone |
| CustomerApi.GenerateUid | libraries/api/customer.php:226-237 | at most 20 characters: a letters-only stem followed by the four digits of the random suffix |
| CustomerApi.GenerateUidSeparatesSuffixes | libraries/api/customer.php:237 | the same names with different suffixes never give the same handle |
| CustomerApi.GenerateUidOfPlainName | libraries/api/customer.php:228-237 | a letters-only name that fits gives initial, last name, digits |
| CustomerApi.GenerateUidAsWritten | libraries/api/customer.php:226-238 | the function as written hands its caller nothing |
| CustomerApi.GenerateUidAsWrittenDropsHandle | libraries/api/customer.php:238 | the handle the caller receives is not the one computed |
| CustomerApi.PhoneStringSplits | libraries/api/customer.php:42 | `+cc.number` can be read back into calling code and number when the code has no dot |
| CustomerApi.CreateCustomerParams | libraries/api/customer.php:30-43 | exactly the twelve sub-account keys; password and confirmation equal; organisation is the company or `None`, never empty; phone as `+cc.number`; the other fields copied from the client |
| CustomerApi.NewCustomerHandle | libraries/api/customer.php:32 | with the intended handle, the new login is 4 to 20 characters: letters, then the four random digits |
| CustomerApi.CustomerIdFor | libraries/api/customer.php:70-77 | the caller's `customer_id` when set, otherwise the lookup's id |
| CustomerApi.HyphenatedIdIsIgnored | libraries/api/customer.php:50 | an id stored under `customer-id` is never the one checked, so the lookup's id is used |
| CustomerApi.ContactFixed | libraries/api/customer.php:81-93 | exactly the eleven fixed contact keys; company or `Not Applicable`; the ISO country; the parsed phone; the customer id; the given profile |
| CustomerApi.ContactBase | libraries/api/customer.php:95-100 | the fixed fields with `address-line-2` and `address-line-3` present exactly when non-empty, each with its value, the fixed fields unchanged |
| CustomerApi.ContactParams | libraries/api/customer.php:103-105 | the extras are joined with `+`: every contact field keeps its own value and an extra only adds a new key |
| CustomerApi.CreateContact | libraries/api/customer.php:65-116 | posts the credentials joined with the contact parameters for the chosen customer id and the domain's profile; fails with the reply's message exactly when the reply's status is `ERROR`, otherwise returns the reply |
| CustomerApi.DefaultContactParams | libraries/api/customer.php:145-148 | exactly `type` (the domain's profile) and `customer-id` |
| AsiaHandler.SetContactParams | libraries/extension_handlers/domain_asia.php:66-83 | exactly the eight attribute keys, the names `locality`, `legalentitytype`, `identform`, `identnumber` and the four declaration fields as values |
| AsiaHandler.SetContactParamsReadsOnlyDeclaration | libraries/extension_handlers/domain_asia.php:66-83 | forms that agree on the four declaration fields give the same attributes; every other field is ignored |
| AsiaHandler.SetRegistrationParams | libraries/extension_handlers/domain_asia.php:131-134 | the custom fields come back unchanged, whatever the domain |
| AsiaHandler.ModifyDomainParams | libraries/extension_handlers/domain_asia.php:148-151 | the domain parameters come back unchanged |
| AsiaCountries.CountryList | libraries/extension_handlers/domain_asia.php:160-241 | every key is a two-letter upper-case code |
| AsiaRouting.AsiaUsesGenericApi | libraries/extension_handlers/domain_asia.php:8-10 | with all three flags off, every `.asia` registration, renewal and transfer goes to the generic API with the facade's parameters |
| ErrorHtml.ErrorItemAt | libraries/enom.php:266-270 | every error shows up in its place as `<li>error</li>`, between the items before and after it |
| ErrorHtml.RenderErrors | libraries/enom.php:266-270 | the loop builds `<ul>`, one `<li>` per error in order, `</ul>` |
| Registrar.FieldTextInjective | libraries/enom.php:137-236 | no two contact fields share a key suffix |
| Registrar.KeyOfInjective | libraries/enom.php:137-236 | distinct role/field pairs have distinct wire keys |
| Registrar.RoleEntry | libraries/enom.php:137-236 | a role's block holds a field's wire key exactly when the field is written, with its value |
| Registrar.BlockShape | libraries/enom.php:137-236 | the ten base fields are always written; organisation and job title exactly when the contact names a company; the fax only for such a registrant |
| Registrar.RegistrationDefaults | libraries/enom.php:150-164 | in a registration a company contact's job title is never empty (`N/A` when missing); the registrant's fax falls back to the phone when either fax part is missing |
| Registrar.CopiedAsGiven | libraries/enom.php:378-382 | in transfers and contact updates the job title and fax are copied as given |
| Registrar.ModesAgreeOnCompleteContacts | libraries/enom.php:150-164 | a contact with job title and fax gives the same block for registrations and transfers |
| Registrar.BlockEntrySurvives | libraries/enom.php:239 | the `array_merge` of the blocks keeps each block entry, as no other block holds its key |
| Registrar.WithContactsKeepsBase | libraries/enom.php:239 | base entries without a role prefix survive the contact merge |
| Registrar.WithContactsAddsContactKeys | libraries/enom.php:239 | the contact merge adds only role-prefixed keys |
| Registrar.CustomDataWins | libraries/enom.php:241-243 | the custom data has the last word on every key it sets |
| Registrar.CustomDataKeeps | libraries/enom.php:241-243 | keys the custom data does not set pass through unchanged |
| Registrar.AssembledBaseEntry | libraries/enom.php:239-243 | a request key reaches eNom with its value unless the custom data sets it; then the custom value |
| Registrar.AssembledContactEntry | libraries/enom.php:239-243 | a contact field's wire key is sent exactly when its block writes it, with that value, unless the custom data sets it |
| Registrar.Route | libraries/enom.php:245-257 | the extension class gets the request exactly when it exists and its flag for the operation is on, with the parameters as built; otherwise the generic API's builder adds its command keys |
| Registrar.TermParams | libraries/enom.php:108-113 | exactly `SLD`, `TLD`, `NumYears` and `IgnoreNSFail=Yes` |
| Registrar.Capped | libraries/enom.php:116-125 | the first twelve nameservers, in order, or all of them when there are fewer |
| Registrar.AddNameservers | libraries/enom.php:116-125 | the loop adds `NS1..NSk` for the first k = min(n, 12) nameservers and skips the rest |
| Registrar.RegisterBaseKeys | libraries/enom.php:108-125 | the registration base holds exactly the request keys and `NS1..NSk`, none of them role-prefixed |
| Registrar.RegisterRequestEntries | libraries/enom.php:108-113 | the request keys reach eNom as given, and the custom data overrides them |
| Registrar.RegisterNameservers | libraries/enom.php:116-125 | `NSi` is sent exactly for 1 ≤ i ≤ min(n, 12), holding the i-th nameserver, unless the custom data sets it |
| Registrar.RegisterContacts | libraries/enom.php:137-239 | every contact field goes out under its wire key with the registration block's value, unless the custom data sets it |
| Registrar.RegisterKeysOnly | libraries/enom.php:108-243 | a registration sends only request keys, `NSi` keys, contact keys and custom keys |
| Registrar.RegisterDomain | libraries/enom.php:99-279 | dispatches the assembled parameters through the handler choice; status `1` with no message exactly when the reply has no `errors` element; otherwise status `0` with the element's texts as an HTML list (`<ul></ul>` for an empty element) |
| Registrar.BareStatus | libraries/enom.php:318-327 | `1` exactly when the reply has no `errors` element, `0` otherwise, with no message |
| Registrar.EmptyErrorsElementFails | libraries/enom.php:259-270 | an `errors` element with no children is a failure: status `0`, and the error list is `<ul></ul>` |
| Registrar.RenewDomain | libraries/enom.php:289-328 | the renewal keys through the renewal handler choice; via the API exactly `command=Extend` plus the four request keys; a bare status |
| Registrar.TransferBase | libraries/enom.php:348-353 | exactly `SLD1`, `TLD1`, `AuthInfo1`, `UseContacts=0`, none role-prefixed |
| Registrar.TransferRequestEntries | libraries/enom.php:348-353 | the transfer keys reach eNom as given, and the custom data overrides them |
| Registrar.TransferContacts | libraries/enom.php:365-442 | every contact field goes out with the as-given block's value, unless the custom data sets it |
| Registrar.TransferDomain | libraries/enom.php:339-471 | the transfer parameters through the transfer handler choice, and a bare status |
| Registrar.ContactUpdateDomain | libraries/enom.php:637-640 | the contact update names the domain as given |
| Registrar.ContactUpdateEntries | libraries/enom.php:652-729 | every contact field goes out exactly when the as-given block writes it, with its value |
| Registrar.SetDomainContacts | libraries/enom.php:628-744 | always the generic API's `Contacts` command over the contact-update parameters, and a bare status |
| Registrar.SetDomainLock | libraries/enom.php:481-505 | `SetRegLock` with `UnlockRegistrar` as requested; the reply with status `1` exactly when it has no `errors` element, `0` otherwise |
| Registrar.GetDomainAuthCode | libraries/enom.php:517-541 | `SynchAuthInfo` for the domain; status `0` either way; the success message exactly when the reply has no `errors` element |
| Registrar.GetDomainNameservers | libraries/enom.php:551-582 | `GetDNS` for the domain; when the reply has no `errors` element, status `1` and the nameservers are the reply's `dns`, or empty; otherwise status `0` and no list |
| Registrar.SetDomainNameservers | libraries/enom.php:592-617 | every requested nameserver through the `ModifyNS` builder, with no cap; status `1` exactly when the reply has no `errors` element |
| Registrar.NameserverUpdateSendsAll | libraries/enom.php:600-609 | unlike a registration, each of any number of nameservers is sent as `NSi`, and the domain keys as given |
| Registrar.AvailabilityOf | libraries/enom.php:866-872 | `available` exactly for `Domain available`, `registered` exactly for `Domain not available`, `unknown` for everything else |
| Registrar.DomainAvailability | libraries/enom.php:848-879 | `Check` for the domain; when the reply has no `errors` element, status `1` with the availability token; otherwise status `0` and no token |

## Left out

- `getDomainInfo` (libraries/enom.php:16-88) is not modelled. It relies on the XML object's `end()` behaviour and on date formatting, and its first condition is always true.
- The HTTP dispatcher and the XML parser are not modelled. Every reply is a value passed in.
- The database reads and writes of `syncDomain` and `createContact` are not modelled: records come in as values, and writes go out as a returned `SyncWrite`.
- Date and time conversion is not modelled. `formatDate`, `formatResponses` and the dates in `syncDomain` become caller-supplied functions.
- Phone parsing (`formatPhone`) and the random password and handle suffix are not modelled; they are parameters.
- `getContactFields` and `getRegistrationFields` of the `.asia` class are not modelled; they only render forms.
- `enableTheftProtection`, `disableTheftProtection`, `deleteDomain` and `resendRaaEmail` (libraries/api/domain.php:271-316) are not modelled. Each calls `get` with a path and `$params`; `get` takes one parameter, so the path fills it and `$params` is dropped.
- `getCustomerByEmail` (libraries/api/customer.php:127-131) is not modelled. It passes the undefined `$params` to `get`, where `global_params + null` fails, so as written `createContact` without a `customer_id` stops there and never posts.
- CustomerApi.CreateContact: without a `customer_id` it posts with `lookedUp`, the customer id the email lookup is meant to find; the failure of the lookup as written is not modelled.
- The `post` call of `createCustomer` passes one argument to a two-argument method. Its result handling reads an undefined variable. Only the parameter building is modelled.
- The `get` call of `getDefaultContact` passes a path where the parameters belong. Only the parameters it builds are modelled.
- `modifyContact` is not modelled: it is a bare `post` of the caller's array.
- `updateRemote`, `productFields`, `terminateService`, `suspendService` and `unsuspendService` are not modelled; each returns a constant.
- The order of keys in a PHP array, and the renumbering `array_merge` applies to integer keys, are not modelled. Parameter sets are maps from string keys.
- The contact role's `job_title` is, in the source, rewritten in place on the shared contact object (libraries/enom.php:153-155). The model computes the defaulted value into the block instead, and the contact record stays unchanged.
- DomainApi.SyncDomain: a missing admin, billing or tech contact gets the id `0` and the record is written, as in PHP 7. When `syncDomain` fetches the info itself, the reply is a parsed XML object; on PHP 8 assigning a new object to its contact property (libraries/api/domain.php:362, 367, 372) throws, so such a reply is written neither to the record nor to the purchase. Info supplied by the caller as a plain object is unaffected.
- DomainApi.DefaultContacts: the `0` fill is the PHP 7 behaviour for a parsed XML reply; on PHP 8 the same assignment throws, as the `DomainApi.SyncDomain` line says.
- Registrar.GetDomainNameservers: after the JSON round trip, `count` of a decoded `errors` object is 1 before PHP 8 and throws from PHP 8 on. The model reads any `errors` element as a failure, the behaviour before PHP 8.
- In `getDomainNameservers` the reply goes through a JSON round trip, so a single `dns` entry arrives as a string, not a list. This is not modelled: `dns` is always a list.
- For the operations that annotate the reply (lock, auth code, nameservers, availability), a reply that did not parse is not modelled. Those operations take a parsed `Reply`.
- DomainApi.Tld and Wire.GetTld: for a name without a dot PHP reads the missing second part as null, with a notice. The model reads it as `""`. Concatenated, as in `getTld`, the two are the same text; in a request's `tld` key PHP holds null where the model holds `""`, and how the dispatcher sends a null is not modelled.
- The `.asia` class defines no `registerDomain`/`renewDomain`/`transferDomain` of its own; with its flags off the facade never calls them.
- AsiaCountries.CountryList: the number of entries (73) is not proved; map keys are distinct by construction.
- CustomerApi.CreateContact: the two optional address lines are added through `WithAddressLines` in one step, not as two in-place assignments.

## Findings

| source | as written | input that shows it | evidently intended | confidence | as-written member | corrected member |
|---|---|---|---|---|---|---|
| libraries/api/customer.php:226-238 | `generateUid` builds the handle in a local variable and ends without a `return`, so `createCustomer` builds its parameters with null under `newuid` (parameters that are never sent, since the `post` call lacks an argument) | any names, e.g. first name `Ann`, last name `Lee`: the handle `ALee` + four digits is computed and dropped | return the letters-only stem (at most 16) followed by the four random digits | not executed | CustomerApi.GenerateUidAsWritten | CustomerApi.GenerateUid |
