/** A part of the catalogue: its stored row, and the entity whose stock figures change in place. */
module Parts {
  import opened Prelude

  // Uuids are compared as 128-bit numbers, which is how PostgreSQL orders them; 0 is uuid.Nil.
  type Uuid = nat
  const NIL: Uuid := 0

  // stock_quantity and reserved are INT columns.
  const MAX_INT: int := 0x7fff_ffff

  datatype PartType = Hull | Engine | Shield | Weapon | UnknownType

  datatype EngineClass = ClassA | ClassB | ClassC | InvalidClass
  datatype ShieldType = Energy | Plasma | InvalidShield
  datatype WeaponType = Laser | Missile | InvalidWeapon

  // The properties column after the converter has selected the first key present.
  datatype Properties =
    | HullProperties(strength: int)
    | EngineProperties(engineClass: EngineClass, requiredStrength: int)
    | ShieldProperties(shieldType: ShieldType)
    | WeaponProperties(weaponType: WeaponType)
    | NoProperties
    | MalformedJson

  datatype Error =
    | PartNotFound | InvalidUuid | OutOfStock | NothingToRelease | NothingToCommit | NoPartWereUpdated
    | IncompatibleParts | PartTypeMismatch | InvalidProperties | UnmarshalFailed

  // `name` is the rank of the part's name in the collation order; names may repeat.
  datatype Row = Row(name: nat, partType: PartType, price: int, stock: int, reserved: int, properties: Properties)

  type Table = map<Uuid, Row>

  /** What stops a row from being turned into an entity, in the order the converter looks. */
  function ConversionError(row: Row): Option<Error> {
    match row.properties
    case MalformedJson => Some(UnmarshalFailed)
    case HullProperties(strength) =>
      if strength < 30 || strength > 200 then Some(InvalidProperties) else TypeError(row.partType)
    case EngineProperties(engineClass, _) =>
      if engineClass.InvalidClass? then Some(InvalidProperties) else TypeError(row.partType)
    case ShieldProperties(shieldType) =>
      if shieldType.InvalidShield? then Some(InvalidProperties) else TypeError(row.partType)
    case WeaponProperties(weaponType) =>
      if weaponType.InvalidWeapon? then Some(InvalidProperties) else TypeError(row.partType)
    case NoProperties => TypeError(row.partType)
  }

  function TypeError(t: PartType): Option<Error> {
    if t.UnknownType? then Some(InvalidProperties) else None
  }

  /** A row is readable exactly with a known type and, if it has properties, well-formed ones of whatever kind. */
  lemma ReadableExact(row: Row)
    ensures ConversionError(row).None? <==>
      && row.partType != UnknownType && row.properties != MalformedJson
      && (row.properties.HullProperties? ==> 30 <= row.properties.strength <= 200)
      && (row.properties.EngineProperties? ==> row.properties.engineClass in {ClassA, ClassB, ClassC})
      && (row.properties.ShieldProperties? ==> row.properties.shieldType in {Energy, Plasma})
      && (row.properties.WeaponProperties? ==> row.properties.weaponType in {Laser, Missile})
    ensures ConversionError(row) == Some(UnmarshalFailed) <==> row.properties == MalformedJson
    ensures ConversionError(row).Some? ==> ConversionError(row).value in {UnmarshalFailed, InvalidProperties}
  {
  }

  datatype PartOp = Reserve | Release | Commit

  /** Why the entity refuses an operation, if it does. */
  function Refusal(op: PartOp, row: Row): Option<Error> {
    match op
    case Reserve => if row.stock - row.reserved <= 0 then Some(OutOfStock) else None
    case Release => if row.reserved <= 0 then Some(NothingToRelease) else None
    case Commit => if row.reserved <= 0 || row.stock <= 0 then Some(NothingToCommit) else None
  }

  function After(op: PartOp, row: Row): Row {
    match op
    case Reserve => row.(reserved := row.reserved + 1)
    case Release => row.(reserved := row.reserved - 1)
    case Commit => row.(reserved := row.reserved - 1, stock := row.stock - 1)
  }

  /** No part is promised more often than it is in stock, and the figures fit their columns. */
  predicate Sound(row: Row) {
    0 <= row.reserved <= row.stock <= MAX_INT
  }

  /** Columns that no stock operation touches. */
  predicate SameIdentity(a: Row, b: Row) {
    a.(stock := b.stock, reserved := b.reserved) == b
  }

  class Part {
    const uuid: Uuid
    const record: Row
    var stockQuantity: int
    var reserved: int

    /** RestorePart: no validation, the figures are taken over as stored. */
    constructor (uuid: Uuid, row: Row)
      ensures this.uuid == uuid && Value() == row
    {
      this.uuid := uuid;
      this.record := row;
      this.stockQuantity := row.stock;
      this.reserved := row.reserved;
    }

    function Value(): Row
      reads this
    {
      record.(stock := stockQuantity, reserved := reserved)
    }

    method Reserve() returns (err: Option<Error>)
      modifies this
      ensures err == if old(reserved) < old(stockQuantity) then None else Some(OutOfStock)
      ensures stockQuantity == old(stockQuantity)
      ensures reserved == old(reserved) + if old(reserved) < old(stockQuantity) then 1 else 0
      ensures err == Refusal(PartOp.Reserve, old(Value()))
      ensures Value() == if err.None? then After(PartOp.Reserve, old(Value())) else old(Value())
    {
      if stockQuantity - reserved <= 0 {
        return Some(OutOfStock);
      }
      reserved := reserved + 1;
      return None;
    }

    method Release() returns (err: Option<Error>)
      modifies this
      ensures err == if 0 < old(reserved) then None else Some(NothingToRelease)
      ensures stockQuantity == old(stockQuantity)
      ensures reserved == old(reserved) - if 0 < old(reserved) then 1 else 0
      ensures err == Refusal(PartOp.Release, old(Value()))
      ensures Value() == if err.None? then After(PartOp.Release, old(Value())) else old(Value())
    {
      if reserved <= 0 {
        return Some(NothingToRelease);
      }
      reserved := reserved - 1;
      return None;
    }

    method Commit() returns (err: Option<Error>)
      modifies this
      ensures err == if 0 < old(reserved) && 0 < old(stockQuantity) then None else Some(NothingToCommit)
      ensures var used := if 0 < old(reserved) && 0 < old(stockQuantity) then 1 else 0;
              reserved == old(reserved) - used && stockQuantity == old(stockQuantity) - used
      ensures err == Refusal(PartOp.Commit, old(Value()))
      ensures Value() == if err.None? then After(PartOp.Commit, old(Value())) else old(Value())
    {
      if reserved <= 0 {
        return Some(NothingToCommit);
      }
      if stockQuantity <= 0 {
        return Some(NothingToCommit);
      }
      reserved := reserved - 1;
      stockQuantity := stockQuantity - 1;
      return None;
    }

    method Perform(op: PartOp) returns (err: Option<Error>)
      modifies this
      ensures err == Refusal(op, old(Value()))
      ensures Value() == if err.None? then After(op, old(Value())) else old(Value())
    {
      match op
      case Reserve => err := Reserve();
      case Release => err := Release();
      case Commit => err := Commit();
    }
  }
}
