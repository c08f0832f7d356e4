/**
 * The domain command builders of the wire API: each turns a request into the
 * flat `command=` parameter set that is then sent through `Wire.EnomApi.Get`.
 * Also the domain-name split, the nameserver expansion to `NS1..NSn` and the
 * reconciliation of a local domain record with the registrar's domain info.
 */
module DomainApi {
  import opened Wrappers
  import opened PhpArray
  import Text

  // ---------------------------------------------------------------------------
  // Domain names

  /** `splitDomain`: lower-case, then cut at the first dot only. */
  function SplitDomain(domain: string): (parts: seq<string>)
    ensures 1 <= |parts| <= 2
    ensures |parts| == 1 <==> '.' !in domain
    ensures |parts| == 1 ==> parts[0] == Text.Lower(domain)
    ensures |parts| == 2 ==> '.' !in parts[0] && parts[0] + "." + parts[1] == Text.Lower(domain)
  {
    Text.LowerKeepsDots(domain);
    Text.SplitFirst(Text.Lower(domain), '.')
  }

  /** Joining the parts with a dot gives back the lower-cased name. */
  lemma SplitDomainJoins(domain: string)
    ensures Text.Join(SplitDomain(domain), ".") == Text.Lower(domain)
  {
  }

  /** A name with several dots keeps all but the first in the second part (`a.b.co.uk` gives `a` and `b.co.uk`). */
  lemma SplitDomainAtFirstDot(sld: string, rest: string)
    requires '.' !in sld
    ensures SplitDomain(sld + "." + rest) == [Text.Lower(sld), Text.Lower(rest)]
  {
    Text.LowerAppend(sld + ".", rest);
    Text.LowerAppend(sld, ".");
    assert Text.Lower(".") == ".";
    Text.LowerKeepsDots(sld);
    assert '.' !in Text.Lower(sld);
    Text.SplitFirstUnique(Text.Lower(sld + "." + rest), '.', Text.Lower(sld), Text.Lower(rest));
  }

  /** The first part, sent as the second-level label. */
  function Sld(domain: string): string
  {
    SplitDomain(domain)[0]
  }

  /** The second part; undefined for a dotless name, which PHP reads as null and we as "". */
  function Tld(domain: string): string
  {
    var parts := SplitDomain(domain);
    if |parts| == 2 then parts[1] else ""
  }

  /** `domainTld`: what follows the first dot of the lower-cased name, or all of it without a dot. */
  function DomainTld(domain: string): (tld: string)
    ensures '.' !in domain ==> tld == Text.Lower(domain)
    ensures '.' in domain ==>
      var lower := Text.Lower(domain);
      |tld| < |lower| && lower[|lower| - |tld| - 1] == '.' && lower[|lower| - |tld|..] == tld
      && '.' !in lower[..|lower| - |tld| - 1]
  {
    var parts := SplitDomain(domain);
    if |parts| == 2 then
      var lower := Text.Lower(domain);
      assert lower == parts[0] + ['.'] + parts[1];
      assert lower[..|parts[0]|] == parts[0] && lower[|parts[0]| + 1..] == parts[1];
      parts[1]
    else parts[0]
  }

  // ---------------------------------------------------------------------------
  // Command builders

  /**
   * A lookup of `domain`: exactly `command`, `sld` and `tld`, split at the
   * first dot of the lower-cased name, with `tld` empty when there is no dot.
   */
  predicate IsQuery(p: Params, command: string, domain: string)
  {
    && p.Keys == {"command", "sld", "tld"} && p["command"] == command
    && ('.' in domain ==> '.' !in p["sld"] && p["sld"] + "." + p["tld"] == Text.Lower(domain))
    && ('.' !in domain ==> p["sld"] == Text.Lower(domain) && p["tld"] == "")
  }

  /** The `{command, sld, tld}` shape of the four read-only lookups. */
  function DomainQuery(command: string, domain: string): (p: Params)
    ensures IsQuery(p, command, domain)
  {
    map["command" := command, "sld" := Sld(domain), "tld" := Tld(domain)]
  }

  function DomainStatus(domain: string): (p: Params)
    ensures IsQuery(p, "GetDomainStatus", domain)
  {
    DomainQuery("GetDomainStatus", domain)
  }

  function DomainInfo(domain: string): (p: Params)
    ensures IsQuery(p, "GetDomainInfo", domain)
  {
    DomainQuery("GetDomainInfo", domain)
  }

  function DomainLockStatus(domain: string): (p: Params)
    ensures IsQuery(p, "GetRegLock", domain)
  {
    DomainQuery("GetRegLock", domain)
  }

  function DomainContacts(domain: string): (p: Params)
    ensures IsQuery(p, "GetContacts", domain)
  {
    DomainQuery("GetContacts", domain)
  }

  function DomainExtensionAttributes(tld: string): (p: Params)
    ensures p.Keys == {"command", "tld"} && p["command"] == "GetExtAttributes" && p["tld"] == tld
  {
    map["command" := "GetExtAttributes", "tld" := tld]
  }

  function SetDomainContacts(params: Params): (p: Params)
    ensures Extends(p, params, map["command" := "Contacts"])
  {
    params["command" := "Contacts"]
  }

  function DomainAvailability(params: Params): (p: Params)
    ensures Extends(p, params, map["command" := "Check"])
  {
    params["command" := "Check"]
  }

  function RegisterDomain(params: Params): (p: Params)
    ensures Extends(p, params, map["command" := "Purchase"])
  {
    params["command" := "Purchase"]
  }

  function RenewDomain(params: Params): (p: Params)
    ensures Extends(p, params, map["command" := "Extend"])
  {
    params["command" := "Extend"]
  }

  /** A transfer is always a single-domain order in auto-verification mode. */
  function TransferDomain(params: Params): (p: Params)
    ensures Extends(p, params, map["command" := "TP_CreateOrder", "OrderType" := "Autoverification", "DomainCount" := "1"])
  {
    params["command" := "TP_CreateOrder"]["OrderType" := "Autoverification"]["DomainCount" := "1"]
  }

  function GetNameservers(params: Params): (p: Params)
    ensures Extends(p, params, map["command" := "GetDNS"])
  {
    params["command" := "GetDNS"]
  }

  function SetDomainLock(params: Params): (p: Params)
    ensures Extends(p, params, map["command" := "SetRegLock"])
  {
    params["command" := "SetRegLock"]
  }

  /** The auth code is always mailed to the registrant and a resync is always forced. */
  function SendAuthCode(params: Params): (p: Params)
    ensures Extends(p, params, map["command" := "SynchAuthInfo", "EmailEPP" := "True", "RunSynchAutoInfo" := "True"])
  {
    params["command" := "SynchAuthInfo"]["EmailEPP" := "True"]["RunSynchAutoInfo" := "True"]
  }

  // ---------------------------------------------------------------------------
  // Indexed nameserver keys

  /** The key of the i-th nameserver, `NS1`, `NS2`, ... */
  function NsKey(i: nat): string
  {
    "NS" + Text.NatToString(i)
  }

  /** The keys `NS1..NSn`. */
  function NsKeys(n: nat): (keys: set<string>)
    ensures forall i :: 1 <= i <= n ==> NsKey(i) in keys
    ensures "NS" !in keys && "command" !in keys
  {
    if n == 0 then {} else NsKeyFacts(n, n); NsKeys(n - 1) + {NsKey(n)}
  }

  /** Distinct positions have distinct keys, and no key is `NS` or `command`. */
  lemma NsKeyFacts(i: nat, j: nat)
    ensures NsKey(i) == NsKey(j) ==> i == j
    ensures NsKey(i) != "NS" && NsKey(i) != "command"
    ensures |NsKey(i)| >= 3 && NsKey(i)[..2] == "NS"
  {
    if NsKey(i) == NsKey(j) {
      assert Text.NatToString(i) == NsKey(i)[2..] == NsKey(j)[2..] == Text.NatToString(j);
      Text.NatToStringInjective(i, j);
    }
    assert NsKey(i)[0] == 'N';
  }

  /** Distinct positions have distinct keys. */
  lemma NsKeysDiffer(i: nat, j: nat)
    requires i != j
    ensures NsKey(i) != NsKey(j)
  {
    NsKeyFacts(i, j);
  }

  /** `NSi` is among the keys `NS1..NSn` exactly when `1 <= i <= n`. */
  lemma {:induction false} NsKeysExact(n: nat, i: nat)
    ensures NsKey(i) in NsKeys(n) <==> 1 <= i <= n
    decreases n
  {
    if n > 0 {
      NsKeysExact(n - 1, i);
      NsKeyFacts(i, n);
    }
  }

  /** Every key among `NS1..NSn` starts with `NS`. */
  lemma {:induction false} NsKeysShape(n: nat)
    ensures forall k :: k in NsKeys(n) ==> |k| >= 3 && k[0] == 'N' && k[1] == 'S'
    decreases n
  {
    if n > 0 {
      NsKeysShape(n - 1);
      NsKeyFacts(n, n);
      var k := NsKey(n);
      assert k[0] == k[..2][0] && k[1] == k[..2][1];
    }
  }

  /** The `NS1..NSn` entries for a list of nameservers, in order. */
  function NsParams(ns: seq<string>): (p: Params)
    ensures p.Keys == NsKeys(|ns|)
    ensures forall i :: 1 <= i <= |ns| ==> p[NsKey(i)] == ns[i - 1]
    decreases |ns|
  {
    if ns == [] then map[]
    else
      var prev := NsParams(ns[..|ns| - 1]);
      NsKeysGrow(prev, |ns|, ns[|ns| - 1]);
      NsValuesGrow(prev, ns);
      prev[NsKey(|ns|) := ns[|ns| - 1]]
  }

  /** Adding `NSn` to the keys `NS1..NS(n-1)` gives the keys `NS1..NSn`. */
  lemma NsKeysGrow(prev: Params, n: nat, v: string)
    requires n >= 1 && prev.Keys == NsKeys(n - 1)
    ensures prev[NsKey(n) := v].Keys == NsKeys(n)
  {
  }

  /** Adding `NSn` keeps the entries of the first n-1 nameservers. */
  lemma NsValuesGrow(prev: Params, ns: seq<string>)
    requires ns != []
    requires forall i :: 1 <= i < |ns| ==> NsKey(i) in prev && prev[NsKey(i)] == ns[i - 1]
    ensures var p := prev[NsKey(|ns|) := ns[|ns| - 1]];
      forall i :: 1 <= i <= |ns| ==> p[NsKey(i)] == ns[i - 1]
  {
    var n := |ns|;
    var p := prev[NsKey(n) := ns[n - 1]];
    forall i | 1 <= i < n
      ensures p[NsKey(i)] == ns[i - 1]
    {
      NsKeysDiffer(i, n);
    }
  }

  /**
   * What `setNameservers` sends: every listed nameserver as `NSi` (1-based,
   * in order, no cap), the list entry `NS` itself removed, and the command `ModifyNS`.
   */
  function ModifyNsParams(params: Params, ns: seq<string>): (out: Params)
    ensures out.Keys == (params.Keys - {"NS"}) + {"command"} + NsKeys(|ns|)
    ensures "NS" !in out && out["command"] == "ModifyNS"
    ensures forall i :: 1 <= i <= |ns| ==> out[NsKey(i)] == ns[i - 1]
    ensures forall k :: k in params && k != "command" && k != "NS" && k !in NsKeys(|ns|) ==> out[k] == params[k]
  {
    var listed := NsParams(ns);
    NsListEdit(params, listed);
    (params["command" := "ModifyNS"] + listed) - {"NS"}
  }

  /** The command written over `params`, the listed keys merged in, the `NS` entry removed. */
  lemma NsListEdit(params: Params, listed: Params)
    requires "NS" !in listed && "command" !in listed
    ensures var out := (params["command" := "ModifyNS"] + listed) - {"NS"};
      && out.Keys == (params.Keys - {"NS"}) + {"command"} + listed.Keys
      && "NS" !in out && out["command"] == "ModifyNS"
      && (forall k :: k in listed ==> out[k] == listed[k])
      && (forall k :: k in params && k != "command" && k != "NS" && k !in listed ==> out[k] == params[k])
  {
    assert "command" != "NS";
  }

  /** `setNameservers`: the loop that writes `NS1..NSn` one key at a time. */
  method SetNameservers(params: Params, ns: seq<string>) returns (out: Params)
    ensures out == ModifyNsParams(params, ns)
  {
    var base := params["command" := "ModifyNS"];
    out := base;
    var i := 1;
    while i <= |ns|
      invariant 1 <= i <= |ns| + 1
      invariant out == base + NsParams(ns[..i - 1])
    {
      NsParamsStep(ns, i);
      MergeUpdate(base, NsParams(ns[..i - 1]), NsKey(i), ns[i - 1]);
      out := out[NsKey(i) := ns[i - 1]];
      i := i + 1;
    }
    assert ns[..|ns|] == ns;
    out := out - {"NS"};
  }

  lemma MergeUpdate(a: Params, m: Params, k: string, v: string)
    ensures (a + m)[k := v] == a + m[k := v]
  {
  }

  /** One more loop round adds exactly the next key. */
  lemma NsParamsStep(ns: seq<string>, i: nat)
    requires 1 <= i <= |ns|
    ensures NsParams(ns[..i]) == NsParams(ns[..i - 1])[NsKey(i) := ns[i - 1]]
  {
    assert ns[..i][..i - 1] == ns[..i - 1];
  }

  // ---------------------------------------------------------------------------
  // Reconciliation

  /** The local domain record, as far as the sync reads or writes it. */
  datatype DomainRecord = DomainRecord(
    enableSync: string,
    dateRegistered: string,
    dateExpires: string,
    nameservers: string,
    registrarLock: string,
    registrarData: string)

  /** The product purchase that pays for the domain. */
  datatype Purchase = Purchase(nextRenewal: string, nextInvoice: string)

  /**
   * The registrar's domain info, as far as the sync reads it. `fields` holds
   * the scalar children (`ns1`, `ns2`, ...); a missing one reads as "". A role
   * contact is `None` when its element is absent, otherwise its `contactid`.
   */
  datatype DomainInfoReply = DomainInfoReply(
    noOfNameServers: Option<int>,
    fields: Params,
    orderStatus: seq<string>,
    adminContact: Option<string>,
    billingContact: Option<string>,
    techContact: Option<string>,
    registrantContact: string,
    orderId: string,
    creationTime: int,
    endTime: int)

  /**
   * Everything one sync writes: the domain record, the purchase, and the
   * defaulted info. The record is saved before the next invoice date is
   * worked out; when that step throws, `purchase` is `None`: the purchase is
   * not saved and the exception leaves `syncDomain`.
   */
  datatype SyncWrite = SyncWrite(record: DomainRecord, purchase: Option<Purchase>, info: DomainInfoReply)

  /** Dividers that `rtrim($s, ', ')` strips: a character set, not a suffix. */
  const TrimMask: set<char> := {',', ' '}

  /** The values of `ns1..nsk`, in order. */
  function NsFieldList(fields: Params, k: nat): (xs: seq<string>)
    ensures |xs| == k
  {
    if k == 0 then [] else NsFieldList(fields, k - 1) + [Field(fields, "ns" + Text.NatToString(k))]
  }

  /** The i-th value is the field `ns(i+1)`, or "" when the reply has no such field. */
  lemma {:induction false} NsFieldListAt(fields: Params, k: nat, i: nat)
    requires i < k
    ensures NsFieldList(fields, k)[i] == Field(fields, "ns" + Text.NatToString(i + 1))
    decreases k
  {
    if i < k - 1 {
      NsFieldListAt(fields, k - 1, i);
    }
  }

  /** The accumulated text before trimming: each value followed by ", ". */
  function WithSeparators(xs: seq<string>): string
  {
    if xs == [] then "" else WithSeparators(xs[..|xs| - 1]) + xs[|xs| - 1] + ", "
  }

  lemma {:induction false} WithSeparatorsIsJoin(xs: seq<string>)
    requires xs != []
    ensures WithSeparators(xs) == Text.Join(xs, ", ") + ", "
    decreases |xs|
  {
    if |xs| > 1 {
      WithSeparatorsIsJoin(xs[..|xs| - 1]);
    }
  }

  /** The nameserver count the info reports, as a loop bound (never below zero). */
  function NsCount(info: DomainInfoReply): nat
    requires info.noOfNameServers.Some?
  {
    if info.noOfNameServers.value < 1 then 0 else info.noOfNameServers.value
  }

  /** The nameserver text the sync stores. */
  function SyncedNameservers(info: DomainInfoReply): string
    requires info.noOfNameServers.Some?
  {
    Text.RTrim(WithSeparators(NsFieldList(info.fields, NsCount(info))), TrimMask)
  }

  /**
   * The stored text is the nameservers joined by ", " whenever the last one
   * is non-empty and does not itself end in ',' or ' '.
   */
  lemma SyncedNameserversAreJoined(info: DomainInfoReply)
    requires info.noOfNameServers.Some?
    requires var xs := NsFieldList(info.fields, NsCount(info));
      xs != [] && xs[|xs| - 1] != [] && xs[|xs| - 1][|xs[|xs| - 1]| - 1] !in TrimMask
    ensures SyncedNameservers(info) == Text.Join(NsFieldList(info.fields, NsCount(info)), ", ")
  {
    var xs := NsFieldList(info.fields, NsCount(info));
    TrimmedJoin(xs);
  }

  /** Trimming the separated text gives the joined list when the last value ends outside the mask. */
  lemma TrimmedJoin(xs: seq<string>)
    requires xs != [] && xs[|xs| - 1] != [] && xs[|xs| - 1][|xs[|xs| - 1]| - 1] !in TrimMask
    ensures Text.RTrim(WithSeparators(xs), TrimMask) == Text.Join(xs, ", ")
  {
    WithSeparatorsIsJoin(xs);
    var joined := Text.Join(xs, ", ");
    JoinEndsWithLast(xs, ", ");
    var tail := ", ";
    assert forall i :: 0 <= i < |tail| ==> tail[i] in TrimMask;
    Text.RTrimAppended(joined, tail, TrimMask);
  }

  /** A reported count below one stores an empty nameserver text. */
  lemma SyncedNameserversNone(info: DomainInfoReply)
    requires info.noOfNameServers.Some? && info.noOfNameServers.value < 1
    ensures SyncedNameservers(info) == ""
  {
  }

  /**
   * When the last nameserver value is empty, `rtrim` also eats the divider
   * before it: two nameservers "a" and "" are stored as "a", not as "a, ".
   */
  lemma SyncedNameserversDropsEmptyTail()
    ensures Text.RTrim(WithSeparators(["a", ""]), TrimMask) == "a"
  {
    var xs := ["a", ""];
    assert xs[..1] == ["a"];
    assert ["a"][..0] == [];
    assert WithSeparators(["a"]) == "a, ";
    assert WithSeparators(xs) == "a, " + "" + ", ";
    var tail := ", , ";
    assert WithSeparators(xs) == "a" + tail;
    assert forall i :: 0 <= i < |tail| ==> tail[i] in TrimMask;
    Text.RTrimAppended("a", tail, TrimMask);
  }

  lemma {:induction false} JoinEndsWithLast(xs: seq<string>, sep: string)
    requires xs != [] && xs[|xs| - 1] != []
    ensures var j := Text.Join(xs, sep); j != [] && j[|j| - 1] == xs[|xs| - 1][|xs[|xs| - 1]| - 1]
  {
  }

  predicate IsLockStatus(status: string)
  {
    status == "transferlock" || status == "customerlock"
  }

  /** The lock flag: '1' exactly when some order status is a transfer or customer lock. */
  function LockFlag(statuses: seq<string>): string
  {
    if exists t :: 0 <= t < |statuses| && IsLockStatus(statuses[t]) then "1" else "0"
  }

  /** The info with every missing admin, billing and tech contact given id '0'; the registrant is left alone. */
  function WithDefaultContacts(info: DomainInfoReply): DomainInfoReply
  {
    info.(adminContact := Some(info.adminContact.GetOr("0")),
          billingContact := Some(info.billingContact.GetOr("0")),
          techContact := Some(info.techContact.GetOr("0")))
  }

  /** The audit text: order id, then the admin, billing, tech and registrant contact ids. */
  function RegistrarData(orderId: string, admin: string, billing: string, tech: string, registrant: string): string
  {
    "orderid: " + orderId + ". admincontactid: " + admin + ". billingcontactid: " + billing
      + ". techcontactid: " + tech + ". registrantcontact: " + registrant
  }

  /**
   * `syncDomain`. `given` is the info the caller passed (or none); `fetched`
   * is what the `GetDomainInfo` call would return when it has to be made
   * (`None` when no document came back). `toDate` is the timezone-aware date
   * conversion of a timestamp, `invoiceDate` the lead-time subtraction,
   * which is `None` when the interval of `invoiceDays` days cannot be built
   * (the PHP interval constructor throws on such a setting).
   * The PHP method always returns null; its effect is what it writes.
   */
  method SyncDomain(record: DomainRecord, purchase: Purchase, given: Option<DomainInfoReply>,
                    fetched: Option<DomainInfoReply>, toDate: int -> string,
                    invoiceDays: int, invoiceDate: (int, int) -> Option<string>)
    returns (calledInfo: bool, write: Option<SyncWrite>)
    ensures record.enableSync != "1" ==> !calledInfo && write.None?
    ensures record.enableSync == "1" ==> calledInfo == given.None?
    ensures var info := if given.Some? then given else fetched;
      record.enableSync == "1" && (info.None? || info.value.noOfNameServers.None?) ==> write.None?
    ensures write.Some? ==>
      var info := if given.Some? then given.value else fetched.value;
      var full := WithDefaultContacts(info);
      && record.enableSync == "1"
      && info.noOfNameServers.Some?
      && write.value.info == full
      && write.value.record == record.(
           dateRegistered := toDate(info.creationTime),
           dateExpires := toDate(info.endTime),
           nameservers := SyncedNameservers(info),
           registrarLock := LockFlag(info.orderStatus),
           registrarData := RegistrarData(info.orderId, full.adminContact.value, full.billingContact.value,
                                          full.techContact.value, info.registrantContact))
      && write.value.purchase.Some? == invoiceDate(info.endTime, invoiceDays).Some?
      && (write.value.purchase.Some? ==>
            write.value.purchase.value == Purchase(toDate(info.endTime), invoiceDate(info.endTime, invoiceDays).value))
    ensures record.enableSync == "1" && (given.Some? || fetched.Some?) ==>
      var info := if given.Some? then given.value else fetched.value;
      info.noOfNameServers.Some? ==> write.Some?
  {
    calledInfo := false;
    write := None;
    if record.enableSync != "1" {
      return;
    }
    var current := given;
    if current.None? {
      calledInfo := true;
      current := fetched;
    }
    if current.None? || current.value.noOfNameServers.None? {
      return;
    }
    var info := current.value;

    var nameservers := CollectNameservers(info);
    var registrarLock := ReadLockFlag(info.orderStatus);

    info := DefaultContacts(info);

    var newRecord := record.(
      dateRegistered := toDate(info.creationTime),
      dateExpires := toDate(info.endTime),
      nameservers := nameservers,
      registrarLock := registrarLock,
      registrarData := RegistrarData(info.orderId, info.adminContact.value, info.billingContact.value,
                                     info.techContact.value, info.registrantContact));
    var nextInvoice := invoiceDate(info.endTime, invoiceDays);
    if nextInvoice.None? {
      write := Some(SyncWrite(newRecord, None, info));
      return;
    }
    var newPurchase := purchase.(nextRenewal := toDate(info.endTime), nextInvoice := nextInvoice.value);
    write := Some(SyncWrite(newRecord, Some(newPurchase), info));
  }

  /** The contact step of `syncDomain`: each missing admin, billing or tech contact is given id '0'. */
  method DefaultContacts(info: DomainInfoReply) returns (full: DomainInfoReply)
    ensures full == WithDefaultContacts(info)
  {
    full := info;
    if full.adminContact.None? {
      full := full.(adminContact := Some("0"));
    }
    if full.billingContact.None? {
      full := full.(billingContact := Some("0"));
    }
    if full.techContact.None? {
      full := full.(techContact := Some("0"));
    }
  }

  /** The nameserver loop of `syncDomain`: `ns1..nsN` each followed by ", ", then trimmed. */
  method CollectNameservers(info: DomainInfoReply) returns (nameservers: string)
    requires info.noOfNameServers.Some?
    ensures nameservers == SyncedNameservers(info)
  {
    var n := info.noOfNameServers.value;
    nameservers := "";
    var i := 1;
    while i <= n
      invariant 1 <= i && (n < 1 ==> i == 1) && (n >= 1 ==> i <= n + 1)
      invariant nameservers == WithSeparators(NsFieldList(info.fields, i - 1))
    {
      var nsfield := "ns" + Text.NatToString(i);
      nameservers := nameservers + Field(info.fields, nsfield) + ", ";
      i := i + 1;
    }
    assert i - 1 == NsCount(info);
    nameservers := Text.RTrim(nameservers, TrimMask);
  }

  /** The lock loop of `syncDomain`: '1' once some status is a lock, '0' otherwise. */
  method ReadLockFlag(statuses: seq<string>) returns (flag: string)
    ensures flag == "1" <==> exists t :: 0 <= t < |statuses| && IsLockStatus(statuses[t])
    ensures flag == "1" || flag == "0"
  {
    flag := "0";
    var t := 0;
    while t < |statuses|
      invariant 0 <= t <= |statuses|
      invariant flag == "1" <==> exists u :: 0 <= u < t && IsLockStatus(statuses[u])
      invariant flag == "1" || flag == "0"
    {
      if statuses[t] == "transferlock" || statuses[t] == "customerlock" {
        flag := "1";
      }
      t := t + 1;
    }
  }
}
