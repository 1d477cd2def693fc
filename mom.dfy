/** Record ("MOM" entry) routes: which records an authenticated principal may
    read through GET /get-mom/:userId, the ownership guard of POST /mom, and the
    listing routes that report a record count beside the records. Queries over
    the record collection are modelled as selections over a sequence. */
module Mom {
  import opened Options
  import opened Seqs

  /** The role label that grants unrestricted reading. */
  const AdminRole: string := "admin"

  /** The eight geographic zone labels, in the order the route lists them. */
  const ZoneLabels: seq<string> := [
    "Eastern Vidarbha",
    "Konkan",
    "Marathwada",
    "Mumbai",
    "Northern Maharashtra",
    "Thane + Palghar",
    "Western Maharashtra",
    "Western Vidarbha"
  ]

  /** The authenticated caller as the authentication middleware leaves it:
      an id and a role list that may be missing. */
  datatype Principal = Principal(id: string, roles: Option<seq<string>>)

  /** The filterable attributes of a stored record; `owner` is its `userId`. */
  datatype Record = Record(owner: string, zone: string, constituency: string, partyName: string, pc: string)

  /** A query over the record collection. */
  datatype Filter =
    | MatchAll
    | ZoneIn(zones: seq<string>)
    | OwnerIs(id: string)
    | PcIs(pc: string)
    | ConstituencyIs(constituency: string)

  /** The outcome of scope resolution: a query to run, or a 403 refusal. */
  datatype Access = Granted(filter: Filter) | Forbidden

  /** Response of GET /get-mom/:userId. */
  datatype MomsResponse = Moms(moms: seq<Record>) | Rejected
  {
    function Status(): nat {
      if Moms? then 200 else 403
    }
  }

  /** Response of the listing routes that report `momCount`. */
  datatype Listing = Listing(moms: seq<Record>, momCount: nat)

  /** Response of POST /mom. */
  datatype CreateResponse = Created(mom: Record) | CreateRejected
  {
    function Status(): nat {
      if Created? then 201 else 403
    }
  }

  predicate Matches(f: Filter, r: Record) {
    match f
    case MatchAll => true
    case ZoneIn(zones) => r.zone in zones
    case OwnerIs(id) => r.owner == id
    case PcIs(pc) => r.pc == pc
    case ConstituencyIs(c) => r.constituency == c
  }

  /** Running a query: the stored records it matches, in storage order, each
      as often as it is stored. */
  function Find(records: seq<Record>, f: Filter): (found: seq<Record>)
    ensures forall r :: r in found <==> r in records && Matches(f, r)
    ensures forall r :: multiset(found)[r] == if Matches(f, r) then multiset(records)[r] else 0
    ensures IsSubsequence(found, records)
  {
    var p := (r: Record) => Matches(f, r);
    KeepIsSubsequence(records, p);
    Keep(records, p)
  }

  /** The empty query returns the whole collection, in storage order. */
  lemma FindAllIsEverything(records: seq<Record>)
    ensures Find(records, MatchAll) == records
  {
    KeepAll(records, (r: Record) => Matches(MatchAll, r));
  }

  /** A missing role list counts as the empty one. */
  function RolesOf(caller: Principal): seq<string> {
    match caller.roles
    case Some(roles) => roles
    case None => []
  }

  /** The caller's roles that are zone labels, in the caller's own order. */
  function ZoneRolesOf(roles: seq<string>): (zones: seq<string>)
    ensures forall z :: z in zones <==> z in roles && z in ZoneLabels
    ensures forall z :: multiset(zones)[z] == if z in ZoneLabels then multiset(roles)[z] else 0
    ensures IsSubsequence(zones, roles)
  {
    var isZone := (role: string) => role in ZoneLabels;
    KeepIsSubsequence(roles, isZone);
    Keep(roles, isZone)
  }

  /** Scope resolution of GET /get-mom/:userId, in the route's order: admin
      first, then the path id against the caller's id, then zone roles, and
      otherwise the records owned by the path id. */
  function ResolveScope(caller: Principal, userId: string): (a: Access)
    ensures a == Granted(MatchAll) <==> AdminRole in RolesOf(caller)
    ensures a == Forbidden <==> AdminRole !in RolesOf(caller) && userId != caller.id
    ensures a.Granted? && a.filter.ZoneIn? ==>
      forall z :: z in a.filter.zones <==> z in RolesOf(caller) && z in ZoneLabels
    ensures a.Granted? && a.filter.OwnerIs? ==>
      a.filter.id == caller.id && forall role :: role in RolesOf(caller) ==> role !in ZoneLabels
    ensures a.Granted? && a.filter.ZoneIn? <==>
      AdminRole !in RolesOf(caller) && userId == caller.id &&
      exists z :: z in RolesOf(caller) && z in ZoneLabels
    ensures a == Granted(OwnerIs(caller.id)) <==>
      AdminRole !in RolesOf(caller) && userId == caller.id &&
      forall role :: role in RolesOf(caller) ==> role !in ZoneLabels
  {
    var roles := RolesOf(caller);
    if AdminRole in roles then Granted(MatchAll)
    else if userId != caller.id then Forbidden
    else
      var zones := ZoneRolesOf(roles);
      if |zones| > 0 then Granted(ZoneIn(zones)) else Granted(OwnerIs(userId))
  }

  /** GET /get-mom/:userId over the stored records. */
  function GetMomForUser(records: seq<Record>, caller: Principal, userId: string): (resp: MomsResponse)
    ensures resp.Rejected? <==> AdminRole !in RolesOf(caller) && userId != caller.id
    ensures resp.Moms? ==> forall r :: r in resp.moms ==> r in records
  {
    match ResolveScope(caller, userId)
    case Forbidden => Rejected
    case Granted(f) => Moms(Find(records, f))
  }

  /** An admin caller reads every stored record, in storage order, whatever
      the path id, and whatever other roles it holds. */
  lemma AdminSeesAllRecords(records: seq<Record>, caller: Principal, userId: string)
    requires AdminRole in RolesOf(caller)
    ensures GetMomForUser(records, caller, userId) == Moms(records)
  {
    FindAllIsEverything(records);
  }

  /** A non-admin caller asking for another id is refused with 403, even
      when it holds zone roles. */
  lemma OtherIdIsForbidden(records: seq<Record>, caller: Principal, userId: string)
    requires AdminRole !in RolesOf(caller)
    requires userId != caller.id
    ensures GetMomForUser(records, caller, userId) == Rejected
    ensures GetMomForUser(records, caller, userId).Status() == 403
  {
  }

  /** A zone-role caller asking for its own id sees exactly the records whose
      zone is one of its zone roles: any of them, not only the first. */
  lemma ZoneCallerSeesItsZones(records: seq<Record>, caller: Principal, zone: string)
    requires AdminRole !in RolesOf(caller)
    requires zone in RolesOf(caller) && zone in ZoneLabels
    ensures GetMomForUser(records, caller, caller.id).Moms?
    ensures forall r :: r in GetMomForUser(records, caller, caller.id).moms <==>
      r in records && r.zone in RolesOf(caller) && r.zone in ZoneLabels
  {
    assert zone in ZoneRolesOf(RolesOf(caller));
  }

  /** A caller with neither the admin role nor any zone role (a missing role
      list included) sees exactly the records it owns. */
  lemma SelfCallerSeesOwnRecords(records: seq<Record>, caller: Principal)
    requires AdminRole !in RolesOf(caller)
    requires forall role :: role in RolesOf(caller) ==> role !in ZoneLabels
    ensures GetMomForUser(records, caller, caller.id).Moms?
    ensures forall r :: r in GetMomForUser(records, caller, caller.id).moms <==>
      r in records && r.owner == caller.id
  {
    var zones := ZoneRolesOf(RolesOf(caller));
    assert forall z :: z !in zones;
  }

  /** A record that a self-scoped caller has just created is among the
      records that caller then reads. */
  lemma CreatedRecordIsVisibleToOwner(records: seq<Record>, caller: Principal, mom: Record)
    requires mom.owner == caller.id
    requires AdminRole !in RolesOf(caller)
    requires forall role :: role in RolesOf(caller) ==> role !in ZoneLabels
    ensures mom in GetMomForUser(records + [mom], caller, caller.id).moms
  {
    SelfCallerSeesOwnRecords(records + [mom], caller);
  }

  /** The ownership check comes before zone resolution: a Konkan-zone caller
      asking for another user's id is refused rather than given its zone. */
  lemma ZoneCallerAskingForOtherIdIsForbidden(records: seq<Record>)
    ensures GetMomForUser(records, Principal("u1", Some(["Konkan"])), "u2") == Rejected
  {
  }

  /** GET /get-mom-by-pc/:pc: the records of one parliamentary constituency
      and their number. */
  function GetMomByPc(records: seq<Record>, pc: string): (l: Listing)
    ensures l.momCount == |l.moms|
    ensures forall r :: r in l.moms <==> r in records && r.pc == pc
    ensures forall r :: multiset(l.moms)[r] == if r.pc == pc then multiset(records)[r] else 0
  {
    var moms := Find(records, PcIs(pc));
    Listing(moms, |moms|)
  }

  /** A query-string value is used only when present and non-empty, as
      JavaScript truthiness decides for a string. */
  predicate Truthy(q: Option<string>) {
    q.Some? && q.value != ""
  }

  /** The query /get-all-moms-count runs: `pc` before `constituency` before
      everything. */
  function AllMomsQuery(pc: Option<string>, constituency: Option<string>): Filter {
    if Truthy(pc) then PcIs(pc.value)
    else if Truthy(constituency) then ConstituencyIs(constituency.value)
    else MatchAll
  }

  /** GET /get-all-moms-count: the selected records and their number. */
  function GetAllMomsCount(records: seq<Record>, pc: Option<string>, constituency: Option<string>): (l: Listing)
    ensures l.momCount == |l.moms|
    ensures Truthy(pc) ==> forall r :: r in l.moms <==> r in records && r.pc == pc.value
    ensures Truthy(pc) ==>
      forall r :: multiset(l.moms)[r] == if r.pc == pc.value then multiset(records)[r] else 0
    ensures !Truthy(pc) && Truthy(constituency) ==>
      forall r :: r in l.moms <==> r in records && r.constituency == constituency.value
    ensures !Truthy(pc) && Truthy(constituency) ==>
      forall r :: multiset(l.moms)[r] == if r.constituency == constituency.value then multiset(records)[r] else 0
    ensures !Truthy(pc) && !Truthy(constituency) ==> l.moms == records
  {
    var f := AllMomsQuery(pc, constituency);
    var moms := Find(records, f);
    if f == MatchAll then
      FindAllIsEverything(records);
      Listing(moms, |moms|)
    else
      Listing(moms, |moms|)
  }

  /** A usable `pc` decides the result alone: `constituency` is ignored. */
  lemma PcTakesPrecedence(records: seq<Record>, pc: Option<string>, c1: Option<string>, c2: Option<string>)
    requires Truthy(pc)
    ensures GetAllMomsCount(records, pc, c1) == GetAllMomsCount(records, pc, c2)
  {
  }

  /** The record collection as POST /mom changes it. */
  class MomStore {
    var moms: seq<Record>

    constructor ()
      ensures moms == []
    {
      moms := [];
    }

    /** POST /mom: a caller may create only a record it owns. */
    method Create(callerId: string, body: Record) returns (resp: CreateResponse)
      modifies this
      ensures body.owner == callerId ==> resp == Created(body) && moms == old(moms) + [body]
      ensures body.owner != callerId ==> resp == CreateRejected && moms == old(moms)
      ensures resp.Status() == 403 <==> body.owner != callerId
    {
      if body.owner != callerId {
        return CreateRejected;
      }
      moms := moms + [body];
      resp := Created(body);
    }
  }
}
