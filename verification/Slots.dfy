/** Resolving the slots of a ship against the catalogue, and the compatibility rules. */
module Slots {
  import opened Prelude
  import opened Parts
  import opened BatchSpec
  import opened InventoryService

  // uuid.Nil in a slot means that the slot is not filled.
  datatype ShipSlots = ShipSlots(hull: Uuid, engine: Uuid, shield: Uuid, weapon: Uuid)

  datatype SlotRequest = SlotRequest(uuid: Uuid, partType: PartType, required: bool)

  datatype Resolved = Resolved(hull: Row, engine: Row, shield: Option<Row>, weapon: Option<Row>)

  // A property of the wrong kind is a nil pointer, and the checker dereferences it for hull and engine.
  datatype Verdict = Compatible | Rejected(error: Error) | Panics

  function Requests(slots: ShipSlots): seq<SlotRequest> {
    [SlotRequest(slots.hull, Hull, true), SlotRequest(slots.engine, Engine, true),
     SlotRequest(slots.shield, Shield, false), SlotRequest(slots.weapon, Weapon, false)]
  }

  /** The filled slots, in order. */
  function Given(requests: seq<SlotRequest>): seq<Uuid> {
    if requests == [] then []
    else
      var last := requests[|requests| - 1];
      Given(requests[..|requests| - 1]) + if last.uuid == NIL then [] else [last.uuid]
  }

  lemma {:induction false} GivenElements(requests: seq<SlotRequest>)
    ensures forall u :: u in Given(requests) <==> u != NIL && exists k :: 0 <= k < |requests| && requests[k].uuid == u
  {
    if requests != [] {
      GivenElements(requests[..|requests| - 1]);
    }
  }

  // ---- what the validation decides, condition by condition in the order of the code ----

  predicate TypesMatch(t: Table, requests: seq<SlotRequest>) {
    forall k :: 0 <= k < |requests| && requests[k].uuid != NIL ==>
      requests[k].uuid in t && t[requests[k].uuid].partType == requests[k].partType
  }

  /** Plasma shields and laser weapons disturb each other. */
  predicate Clash(shield: Option<Row>, weapon: Option<Row>) {
    && shield.Some? && weapon.Some?
    && shield.value.properties == ShieldProperties(Plasma)
    && weapon.value.properties == WeaponProperties(Laser)
  }

  function SlotRow(t: Table, u: Uuid): Option<Row> {
    if u != NIL && u in t then Some(t[u]) else None
  }

  function RuleVerdict(r: Resolved): Verdict {
    if !r.hull.properties.HullProperties? || !r.engine.properties.EngineProperties? then Panics
    else if r.hull.properties.strength < r.engine.properties.requiredStrength then Rejected(IncompatibleParts)
    else if Clash(r.shield, r.weapon) then Rejected(IncompatibleParts)
    else Compatible
  }

  function Validation(t: Table, slots: ShipSlots): Verdict {
    var given := Given(Requests(slots));
    if slots.hull == NIL || slots.engine == NIL then Rejected(InvalidUuid)
    else if !Distinct(given) then Rejected(InvalidUuid)
    else if ListError(t, given).Some? then Rejected(ListError(t, given).value)
    else if !TypesMatch(t, Requests(slots)) then Rejected(PartTypeMismatch)
    else if slots.hull in t && slots.engine in t then
      RuleVerdict(Resolved(t[slots.hull], t[slots.engine], SlotRow(t, slots.shield), SlotRow(t, slots.weapon)))
    else Rejected(PartNotFound)
  }

  /** Every row readable, and its properties of the kind its type says. */
  predicate WellFormedRow(row: Row) {
    && ConversionError(row).None?
    && match row.partType
       case Hull => row.properties.HullProperties?
       case Engine => row.properties.EngineProperties?
       case Shield => row.properties.ShieldProperties?
       case Weapon => row.properties.WeaponProperties?
       case UnknownType => false
  }

  ghost predicate WellFormed(t: Table) {
    forall u :: u in t ==> WellFormedRow(t[u])
  }

  predicate FilledWith(t: Table, u: Uuid, partType: PartType) {
    u != NIL && u in t && t[u].partType == partType
  }

  /** A ship that may be built. */
  predicate Buildable(t: Table, slots: ShipSlots) {
    && FilledWith(t, slots.hull, Hull)
    && FilledWith(t, slots.engine, Engine)
    && (slots.shield != NIL ==> FilledWith(t, slots.shield, Shield))
    && (slots.weapon != NIL ==> FilledWith(t, slots.weapon, Weapon))
    && t[slots.hull].properties.HullProperties? && t[slots.engine].properties.EngineProperties?
    && t[slots.hull].properties.strength >= t[slots.engine].properties.requiredStrength
    && !(slots.shield != NIL && slots.weapon != NIL
         && t[slots.shield].properties == ShieldProperties(Plasma)
         && t[slots.weapon].properties == WeaponProperties(Laser))
  }

  lemma FourRequests(slots: ShipSlots)
    ensures Given(Requests(slots)) ==
            (if slots.hull == NIL then [] else [slots.hull]) + (if slots.engine == NIL then [] else [slots.engine])
            + (if slots.shield == NIL then [] else [slots.shield])
            + (if slots.weapon == NIL then [] else [slots.weapon])
  {
    var q := Requests(slots);
    assert q[..3][..2] == q[..2] && q[..2][..1] == q[..1] && q[..1][..0] == [];
    assert Given(q) == Given(q[..3]) + if slots.weapon == NIL then [] else [slots.weapon];
    assert Given(q[..3]) == Given(q[..2]) + if slots.shield == NIL then [] else [slots.shield];
    assert Given(q[..2]) == Given(q[..1]) + if slots.engine == NIL then [] else [slots.engine];
    assert Given(q[..1]) == Given([]) + if slots.hull == NIL then [] else [slots.hull];
  }

  /** Typed slots cannot share a part, so in a buildable ship the four uuids are distinct without saying so. */
  lemma BuildableIsDistinct(t: Table, slots: ShipSlots)
    requires Buildable(t, slots)
    ensures Distinct(Given(Requests(slots))) && forall u :: u in Given(Requests(slots)) ==> u in t
  {
    FourRequests(slots);
  }

  /**
   * Sound and complete: on a well-formed catalogue the validation succeeds for exactly the buildable ships, and
   * never dereferences a nil property.
   */
  lemma ValidationExact(t: Table, slots: ShipSlots)
    requires WellFormed(t)
    ensures Validation(t, slots) == Compatible <==> Buildable(t, slots)
    ensures !Validation(t, slots).Panics?
  {
    var given := Given(Requests(slots));
    GivenElements(Requests(slots));
    if Buildable(t, slots) {
      BuildableIsDistinct(t, slots);
      assert forall u :: u in given ==> ConversionError(t[u]).None?;
    }
    if forall u :: u in given ==> u in t {
      FirstConversionErrorExact(t, given);
    }
    var q := Requests(slots);
    assert q[0].uuid == slots.hull && q[1].uuid == slots.engine;
    assert q[2].uuid == slots.shield && q[3].uuid == slots.weapon;
  }

  /**
   * Without that assumption the validation can still panic, exactly when every check on uuids, existence,
   * readability and types passes and the hull or the engine carries properties of another kind.
   */
  lemma PanicExact(t: Table, slots: ShipSlots)
    ensures Validation(t, slots).Panics? <==>
      var given := Given(Requests(slots));
      && Distinct(given) && (forall u :: u in given ==> u in t && ConversionError(t[u]).None?)
      && FilledWith(t, slots.hull, Hull) && FilledWith(t, slots.engine, Engine)
      && (slots.shield != NIL ==> FilledWith(t, slots.shield, Shield))
      && (slots.weapon != NIL ==> FilledWith(t, slots.weapon, Weapon))
      && (!t[slots.hull].properties.HullProperties? || !t[slots.engine].properties.EngineProperties?)
  {
    var given := Given(Requests(slots));
    if forall u :: u in given ==> u in t {
      FirstConversionErrorExact(t, given);
    }
    var q := Requests(slots);
    assert q[0].uuid == slots.hull && q[1].uuid == slots.engine;
    assert q[2].uuid == slots.shield && q[3].uuid == slots.weapon;
  }

  // ---- which error a rejected ship gets ----

  /** The filled slots, in the order hull, engine, shield, weapon. */
  function Filled(slots: ShipSlots): seq<Uuid> {
    (if slots.hull == NIL then [] else [slots.hull]) + (if slots.engine == NIL then [] else [slots.engine])
    + (if slots.shield == NIL then [] else [slots.shield]) + (if slots.weapon == NIL then [] else [slots.weapon])
  }

  /** Hull and engine are filled, and no two slots name the same part. */
  predicate UuidsFine(slots: ShipSlots) {
    && slots.hull != NIL && slots.engine != NIL && slots.hull != slots.engine
    && (slots.shield != NIL ==> slots.shield != slots.hull && slots.shield != slots.engine)
    && (slots.weapon != NIL ==>
          slots.weapon != slots.hull && slots.weapon != slots.engine && slots.weapon != slots.shield)
  }

  /** Some filled slot has a part of another type. */
  predicate Misfit(t: Table, slots: ShipSlots) {
    || (slots.hull in t && t[slots.hull].partType != Hull)
    || (slots.engine in t && t[slots.engine].partType != Engine)
    || (slots.shield != NIL && slots.shield in t && t[slots.shield].partType != Shield)
    || (slots.weapon != NIL && slots.weapon in t && t[slots.weapon].partType != Weapon)
  }

  /** The hull does not carry the engine, or a plasma shield meets a laser. */
  predicate BreaksRules(t: Table, slots: ShipSlots) {
    && slots.hull in t && slots.engine in t
    && t[slots.hull].properties.HullProperties? && t[slots.engine].properties.EngineProperties?
    && (|| t[slots.hull].properties.strength < t[slots.engine].properties.requiredStrength
        || (&& slots.shield != NIL && slots.shield in t && t[slots.shield].properties == ShieldProperties(Plasma)
            && slots.weapon != NIL && slots.weapon in t && t[slots.weapon].properties == WeaponProperties(Laser)))
  }

  lemma FilledDistinct(slots: ShipSlots)
    ensures Given(Requests(slots)) == Filled(slots)
    ensures slots.hull != NIL && slots.engine != NIL ==> (Distinct(Filled(slots)) <==> UuidsFine(slots))
  {
    FourRequests(slots);
    var f := Filled(slots);
    if slots.hull != NIL && slots.engine != NIL {
      assert f[0] == slots.hull && f[1] == slots.engine;
      assert slots.shield != NIL ==> f[2] == slots.shield;
      assert slots.weapon != NIL ==> f[|f| - 1] == slots.weapon;
    }
  }

  lemma MisfitExact(t: Table, slots: ShipSlots)
    requires slots.hull != NIL && slots.engine != NIL && forall u :: u in Filled(slots) ==> u in t
    ensures slots.hull in t && slots.engine in t
    ensures TypesMatch(t, Requests(slots)) <==> !Misfit(t, slots)
  {
    var q, f := Requests(slots), Filled(slots);
    assert q[0].uuid == slots.hull && q[1].uuid == slots.engine;
    assert q[2].uuid == slots.shield && q[3].uuid == slots.weapon;
    assert slots.hull in f && slots.engine in f;
    assert slots.shield != NIL ==> slots.shield in f;
    assert slots.weapon != NIL ==> slots.weapon in f;
  }

  /** The first violated condition decides: every answer of the validation, each with exactly when. */
  lemma ValidationErrors(t: Table, slots: ShipSlots)
    ensures Validation(t, slots) == Rejected(InvalidUuid) <==> !UuidsFine(slots)
    ensures Validation(t, slots) == Rejected(PartNotFound) <==>
      UuidsFine(slots) && exists u :: u in Filled(slots) && u !in t
    ensures Validation(t, slots) == Rejected(UnmarshalFailed) <==>
      UuidsFine(slots) && Listed(t, Filled(slots)) && FirstBad(t, Filled(slots), UnmarshalFailed)
    ensures Validation(t, slots) == Rejected(InvalidProperties) <==>
      UuidsFine(slots) && Listed(t, Filled(slots)) && FirstBad(t, Filled(slots), InvalidProperties)
    ensures Validation(t, slots) == Rejected(PartTypeMismatch) <==>
      UuidsFine(slots) && AllReadable(t, Filled(slots)) && Misfit(t, slots)
    ensures Validation(t, slots) == Rejected(IncompatibleParts) <==>
      UuidsFine(slots) && AllReadable(t, Filled(slots)) && !Misfit(t, slots) && BreaksRules(t, slots)
    ensures Validation(t, slots).Rejected? ==>
      Validation(t, slots).error in {InvalidUuid, PartNotFound, UnmarshalFailed, InvalidProperties, PartTypeMismatch,
                                     IncompatibleParts}
  {
    FilledDistinct(slots);
    ListErrors(t, Filled(slots));
    if UuidsFine(slots) && Listed(t, Filled(slots)) {
      MisfitExact(t, slots);
    }
  }

  /** Such a catalogue: a hull row with the properties of a shield. The converter lets it pass. */
  lemma MismatchedHullPanics()
    ensures var t: Table := map[1 := Row(1, Hull, 10, 5, 0, ShieldProperties(Energy)),
                                2 := Row(2, Engine, 10, 5, 0, EngineProperties(ClassA, 40))];
            Validation(t, ShipSlots(1, 2, NIL, NIL)).Panics?
  {
    var t: Table := map[1 := Row(1, Hull, 10, 5, 0, ShieldProperties(Energy)),
                        2 := Row(2, Engine, 10, 5, 0, EngineProperties(ClassA, 40))];
    var slots := ShipSlots(1, 2, NIL, NIL);
    FourRequests(slots);
    PanicExact(t, slots);
  }

  // ---- the service ----

  /** The uuids to fetch, unless a required slot is empty. */
  method CollectUuids(requests: seq<SlotRequest>) returns (uuids: seq<Uuid>, err: Option<Error>)
    ensures err == if exists k :: 0 <= k < |requests| && requests[k].required && requests[k].uuid == NIL
                   then Some(InvalidUuid) else None
    ensures err.None? ==> uuids == Given(requests)
  {
    uuids := [];
    for i := 0 to |requests|
      invariant uuids == Given(requests[..i])
      invariant forall k :: 0 <= k < i ==> !(requests[k].required && requests[k].uuid == NIL)
    {
      assert requests[..i + 1][..i] == requests[..i];
      if requests[i].uuid == NIL {
        if requests[i].required {
          return uuids, Some(InvalidUuid);
        }
        continue;
      }
      uuids := uuids + [requests[i].uuid];
    }
    assert requests[..|requests|] == requests;
    err := None;
  }

  /** validateDuplicateUUIDs: one pass with a set of the uuids seen so far. */
  method ValidateDuplicateUuids(requests: seq<SlotRequest>) returns (err: Option<Error>)
    ensures err == if Distinct(Given(requests)) then None else Some(InvalidUuid)
  {
    var seen: set<Uuid> := {};
    for i := 0 to |requests|
      invariant Distinct(Given(requests[..i])) && seen == Elements(Given(requests[..i]))
    {
      ghost var before := Given(requests[..i]);
      assert requests[..i + 1][..i] == requests[..i];
      if requests[i].uuid == NIL {
        continue;
      }
      if requests[i].uuid in seen {
        GivenGrows(requests, i + 1);
        ghost var k :| 0 <= k < |before| && before[k] == requests[i].uuid;
        assert Given(requests[..i + 1]) == before + [requests[i].uuid];
        assert Given(requests)[k] == Given(requests)[|before|];
        return Some(InvalidUuid);
      }
      seen := seen + {requests[i].uuid};
      assert Elements(before + [requests[i].uuid]) == Elements(before) + {requests[i].uuid};
    }
    assert requests[..|requests|] == requests;
    err := None;
  }

  lemma {:induction false} GivenGrows(requests: seq<SlotRequest>, i: nat)
    requires i <= |requests|
    ensures Given(requests[..i]) <= Given(requests)
  {
    if i < |requests| {
      var init := requests[..|requests| - 1];
      GivenGrows(init, i);
      assert init[..i] == requests[..i];
    } else {
      assert requests[..i] == requests;
    }
  }

  /** Check: the business rules on resolved parts. */
  method Check(parts: Resolved) returns (verdict: Verdict)
    ensures verdict == RuleVerdict(parts)
  {
    if !parts.hull.properties.HullProperties? || !parts.engine.properties.EngineProperties? {
      return Panics;
    }
    if parts.hull.properties.strength < parts.engine.properties.requiredStrength {
      return Rejected(IncompatibleParts);
    }
    var shieldProperties: Option<Properties> := None;
    if parts.shield.Some? && parts.shield.value.properties.ShieldProperties? {
      shieldProperties := Some(parts.shield.value.properties);
    }
    var weaponProperties: Option<Properties> := None;
    if parts.weapon.Some? && parts.weapon.value.properties.WeaponProperties? {
      weaponProperties := Some(parts.weapon.value.properties);
    }
    if shieldProperties.Some? && weaponProperties.Some?
       && shieldProperties.value.shieldType == Plasma && weaponProperties.value.weaponType == Laser {
      return Rejected(IncompatibleParts);
    }
    return Compatible;
  }

  /** resolveShipSlots and Check together. */
  method ValidateCompatibility(repo: Repository, slots: ShipSlots) returns (verdict: Verdict)
    ensures verdict == Validation(repo.table, slots)
  {
    var requests := Requests(slots);
    var uuids, err := CollectUuids(requests);
    assert requests[0].uuid == slots.hull && requests[1].uuid == slots.engine;
    if err.Some? {
      return Rejected(err.value);
    }
    err := ValidateDuplicateUuids(requests);
    if err.Some? {
      return Rejected(err.value);
    }
    FourRequests(slots);
    var parts: seq<Part>;
    ghost var targets;
    parts, err, targets := repo.List(Only(uuids));
    if err.Some? {
      return Rejected(err.value);
    }
    var byUuid := IndexParts(repo.table, uuids, parts);
    GivenElements(requests);
    var resolved;
    resolved, err := Resolve(repo.table, slots, byUuid);
    if err.Some? {
      return Rejected(err.value);
    }
    verdict := Check(resolved);
  }

  /** The fetched parts keyed by uuid. */
  method IndexParts(ghost t: Table, ghost given: seq<Uuid>, parts: seq<Part>) returns (byUuid: map<Uuid, Row>)
    requires Distinct(given) && |parts| == |given|
    requires forall i :: 0 <= i < |parts| ==>
      given[i] in t && parts[i].uuid == given[i] && parts[i].Value() == t[given[i]]
    ensures byUuid.Keys == Elements(given)
    ensures forall u :: u in byUuid ==> u in t && byUuid[u] == t[u]
  {
    byUuid := map[];
    for i := 0 to |parts|
      invariant byUuid.Keys == Elements(given[..i])
      invariant forall u :: u in byUuid ==> u in t && byUuid[u] == t[u]
    {
      byUuid := byUuid[parts[i].uuid := parts[i].Value()];
      assert given[..i + 1] == given[..i] + [given[i]];
    }
    assert given[..|given|] == given;
  }

  /**
   * The second half of resolveShipSlots: each filled slot looked up by uuid and checked for its type. Every given
   * uuid has been fetched by then, so the lookup itself cannot fail.
   */
  method Resolve(ghost t: Table, slots: ShipSlots, byUuid: map<Uuid, Row>)
      returns (resolved: Resolved, err: Option<Error>)
    requires slots.hull != NIL && slots.engine != NIL
    requires forall u :: u in byUuid ==> u in t && byUuid[u] == t[u]
    requires forall k :: 0 <= k < 4 && Requests(slots)[k].uuid != NIL ==> Requests(slots)[k].uuid in byUuid
    ensures slots.hull in t && slots.engine in t
    ensures err == if TypesMatch(t, Requests(slots)) then None else Some(PartTypeMismatch)
    ensures err.None? ==>
      resolved == Resolved(t[slots.hull], t[slots.engine], SlotRow(t, slots.shield), SlotRow(t, slots.weapon))
  {
    var requests := Requests(slots);
    assert requests[0].uuid == slots.hull && requests[1].uuid == slots.engine;
    var hull, engine, shield, weapon: Option<Row> := None, None, None, None;
    for i := 0 to |requests|
      invariant forall k :: 0 <= k < i && requests[k].uuid != NIL ==>
        t[requests[k].uuid].partType == requests[k].partType
      invariant i >= 1 ==> hull == Some(t[slots.hull])
      invariant i >= 2 ==> engine == Some(t[slots.engine])
      invariant shield == if i <= 2 then None else SlotRow(t, slots.shield)
      invariant weapon == if i <= 3 then None else SlotRow(t, slots.weapon)
    {
      var request := requests[i];
      if request.uuid == NIL {
        continue;
      }
      var part := byUuid[request.uuid];
      if part.partType != request.partType {
        return Resolved(part, part, None, None), Some(PartTypeMismatch);
      }
      match request.partType
      case Hull => hull := Some(part);
      case Engine => engine := Some(part);
      case Shield => shield := Some(part);
      case Weapon => weapon := Some(part);
    }
    return Resolved(hull.value, engine.value, shield, weapon), None;
  }
}
