/**
 * The options bag of the symmetric-operations module: six optional slots, three
 * holding byte strings (context, salt, nonce) and three holding unsigned 64-bit
 * integers (memory_limit, ops_limit, parallelism). Each slot is chosen by name,
 * ignoring case; an unknown name is `UnsupportedOption`, and reading a slot
 * that was never written is `OptionNotSet`.
 *
 * The record's value and the four operations on it are pure functions
 * (`Options` with `Set`, `Get`, `SetU64`, `GetU64`); the classes
 * `SymmetricOptionsInner` and `SymmetricOptions` are the mutable, shared
 * record the program actually uses, and their methods are proved against
 * those functions.
 */
module Symmetric {
  import opened CryptoErrors
  import opened Lowercase

  newtype u8 = x: int | 0 <= x < 0x100
  newtype u64 = x: int | 0 <= x < 0x1_0000_0000_0000_0000
  type Bytes = seq<u8>

  datatype Option<T> = None | Some(value: T)

  /** The byte-string slots. */
  datatype ByteOption = Context | Salt | Nonce

  /** The `u64` slots. */
  datatype U64Option = MemoryLimit | OpsLimit | Parallelism

  /** The lower-case name under which each byte-string slot is addressed. */
  function ByteOptionName(k: ByteOption): string {
    match k
    case Context => "context"
    case Salt => "salt"
    case Nonce => "nonce"
  }

  /** The lower-case name under which each `u64` slot is addressed. */
  function U64OptionName(k: U64Option): string {
    match k
    case MemoryLimit => "memory_limit"
    case OpsLimit => "ops_limit"
    case Parallelism => "parallelism"
  }

  /** The byte-string slot a caller's name selects, after lower-casing it. */
  function ByteOptionNamed(name: string): (k: Option<ByteOption>)
    ensures k.Some? ==> ToLower(name) == ByteOptionName(k.value)
    ensures k.None? ==> forall j :: ToLower(name) != ByteOptionName(j)
  {
    match ToLower(name)
    case "context" => Some(Context)
    case "salt" => Some(Salt)
    case "nonce" => Some(Nonce)
    case _ => None
  }

  /** The `u64` slot a caller's name selects, after lower-casing it. */
  function U64OptionNamed(name: string): (k: Option<U64Option>)
    ensures k.Some? ==> ToLower(name) == U64OptionName(k.value)
    ensures k.None? ==> forall j :: ToLower(name) != U64OptionName(j)
  {
    match ToLower(name)
    case "memory_limit" => Some(MemoryLimit)
    case "ops_limit" => Some(OpsLimit)
    case "parallelism" => Some(Parallelism)
    case _ => None
  }

  /** The value of the record behind a bag: each slot is unset or holds a value. */
  datatype Options = Options(
    context: Option<Bytes>,
    salt: Option<Bytes>,
    nonce: Option<Bytes>,
    memoryLimit: Option<u64>,
    opsLimit: Option<u64>,
    parallelism: Option<u64>)
  {
    function ByteSlot(k: ByteOption): Option<Bytes> {
      match k
      case Context => context
      case Salt => salt
      case Nonce => nonce
    }

    function U64Slot(k: U64Option): Option<u64> {
      match k
      case MemoryLimit => memoryLimit
      case OpsLimit => opsLimit
      case Parallelism => parallelism
    }

    /** Writes one byte-string slot; the other five slots keep their values. */
    function WithByteSlot(k: ByteOption, v: Bytes): (o: Options)
      ensures o.ByteSlot(k) == Some(v)
      ensures forall j :: j != k ==> o.ByteSlot(j) == ByteSlot(j)
      ensures forall j :: o.U64Slot(j) == U64Slot(j)
    {
      match k
      case Context => this.(context := Some(v))
      case Salt => this.(salt := Some(v))
      case Nonce => this.(nonce := Some(v))
    }

    /** Writes one `u64` slot; the other five slots keep their values. */
    function WithU64Slot(k: U64Option, x: u64): (o: Options)
      ensures o.U64Slot(k) == Some(x)
      ensures forall j :: j != k ==> o.U64Slot(j) == U64Slot(j)
      ensures forall j :: o.ByteSlot(j) == ByteSlot(j)
    {
      match k
      case MemoryLimit => this.(memoryLimit := Some(x))
      case OpsLimit => this.(opsLimit := Some(x))
      case Parallelism => this.(parallelism := Some(x))
    }

    /** `get`: the byte string stored under `name`. */
    function Get(name: string): Result<Bytes> {
      match ByteOptionNamed(name)
      case None => Err(UnsupportedOption)
      case Some(k) =>
        match ByteSlot(k)
        case None => Err(OptionNotSet)
        case Some(v) => Ok(v)
    }

    /** `get_u64`: the integer stored under `name`. */
    function GetU64(name: string): Result<u64> {
      match U64OptionNamed(name)
      case None => Err(UnsupportedOption)
      case Some(k) =>
        match U64Slot(k)
        case None => Err(OptionNotSet)
        case Some(x) => Ok(x)
    }

    /**
     * `set`: the record after storing `v` under `name`. It fails exactly on the
     * names that are not byte-string slots; on success, reading `name` back
     * gives `v` and every read of another slot is as before.
     */
    function Set(name: string, v: Bytes): (r: Result<Options>)
      ensures r.Err? <==> ByteOptionNamed(name).None?
      ensures r.Err? ==> r.error == UnsupportedOption
      ensures r.Ok? ==> r.value.Get(name) == Ok(v)
      ensures r.Ok? ==> forall m :: ByteOptionNamed(m) != ByteOptionNamed(name) ==> r.value.Get(m) == Get(m)
      ensures r.Ok? ==> forall m :: r.value.GetU64(m) == GetU64(m)
    {
      match ByteOptionNamed(name)
      case None => Err(UnsupportedOption)
      case Some(k) => Ok(WithByteSlot(k, v))
    }

    /**
     * `set_u64`: the record after storing `x` under `name`. It fails exactly on
     * the names that are not `u64` slots; on success, reading `name` back gives
     * `x` and every read of another slot is as before.
     */
    function SetU64(name: string, x: u64): (r: Result<Options>)
      ensures r.Err? <==> U64OptionNamed(name).None?
      ensures r.Err? ==> r.error == UnsupportedOption
      ensures r.Ok? ==> r.value.GetU64(name) == Ok(x)
      ensures r.Ok? ==> forall m :: U64OptionNamed(m) != U64OptionNamed(name) ==> r.value.GetU64(m) == GetU64(m)
      ensures r.Ok? ==> forall m :: r.value.Get(m) == Get(m)
    {
      match U64OptionNamed(name)
      case None => Err(UnsupportedOption)
      case Some(k) => Ok(WithU64Slot(k, x))
    }
  }

  /** The record a new bag starts with: every slot unset. */
  const Unset := Options(None, None, None, None, None, None)

  // ---------------------------------------------------------------------------
  // Name lookup

  /** The byte-string slot names are already lower case. */
  lemma ByteOptionNameIsLower(k: ByteOption)
    ensures IsLower(ByteOptionName(k))
  {
  }

  /** The `u64` slot names are already lower case. */
  lemma U64OptionNameIsLower(k: U64Option)
    ensures IsLower(U64OptionName(k))
  {
  }

  /** A name selects byte-string slot `k` exactly when it spells `k`'s name in some mix of cases. */
  lemma ByteOptionNamedIff(name: string, k: ByteOption)
    ensures ByteOptionNamed(name) == Some(k) <==> EqualIgnoringCase(name, ByteOptionName(k))
  {
    ByteOptionNameIsLower(k);
    ToLowerEqualsLower(name, ByteOptionName(k));
  }

  /** A name selects `u64` slot `k` exactly when it spells `k`'s name in some mix of cases. */
  lemma U64OptionNamedIff(name: string, k: U64Option)
    ensures U64OptionNamed(name) == Some(k) <==> EqualIgnoringCase(name, U64OptionName(k))
  {
    U64OptionNameIsLower(k);
    ToLowerEqualsLower(name, U64OptionName(k));
  }

  /** Two names that differ only in case select the same slot, in both name spaces. */
  lemma LookupIgnoresCase(n1: string, n2: string)
    requires EqualIgnoringCase(n1, n2)
    ensures ByteOptionNamed(n1) == ByteOptionNamed(n2)
    ensures U64OptionNamed(n1) == U64OptionNamed(n2)
  {
    ToLowerEqualIffEqualIgnoringCase(n1, n2);
  }

  /** No name selects both a byte-string slot and a `u64` slot. */
  lemma NameSpacesDisjoint(name: string)
    ensures ByteOptionNamed(name).None? || U64OptionNamed(name).None?
  {
  }

  // ---------------------------------------------------------------------------
  // Properties of the four operations

  /** Writing under one spelling of a name and reading under another spelling of it gives back the value. */
  lemma SetThenGetIgnoringCase(o: Options, n1: string, n2: string, v: Bytes, x: u64)
    requires EqualIgnoringCase(n1, n2)
    ensures o.Set(n1, v).Ok? ==> o.Set(n1, v).value.Get(n2) == Ok(v)
    ensures o.SetU64(n1, x).Ok? ==> o.SetU64(n1, x).value.GetU64(n2) == Ok(x)
  {
    LookupIgnoresCase(n1, n2);
  }

  /** `set("NONCE", v)` followed by `get("nonce")` returns `v`. */
  lemma UpperCaseNonceRoundTrip(o: Options, v: Bytes)
    ensures o.Set("NONCE", v).Ok?
    ensures o.Set("NONCE", v).value.Get("nonce") == Ok(v)
  {
    ByteOptionNamedIff("NONCE", Nonce);
    assert EqualIgnoringCase("NONCE", ByteOptionName(Nonce));
    SetThenGetIgnoringCase(o, "NONCE", "nonce", v, 0);
  }

  /** Every operation fails with `UnsupportedOption` on a name outside its own name space, and only there. */
  lemma UnsupportedNames(o: Options, name: string, v: Bytes, x: u64)
    ensures o.Get(name) == Err(UnsupportedOption) <==> ByteOptionNamed(name).None?
    ensures o.Set(name, v) == Err(UnsupportedOption) <==> ByteOptionNamed(name).None?
    ensures o.GetU64(name) == Err(UnsupportedOption) <==> U64OptionNamed(name).None?
    ensures o.SetU64(name, x) == Err(UnsupportedOption) <==> U64OptionNamed(name).None?
  {
  }

  /** The byte-string names are refused by the `u64` operations, and the `u64` names by the byte-string ones. */
  lemma NameSpacesKeptApart(o: Options, v: Bytes, x: u64)
    ensures forall k :: o.GetU64(ByteOptionName(k)) == Err(UnsupportedOption)
    ensures forall k :: o.SetU64(ByteOptionName(k), x) == Err(UnsupportedOption)
    ensures forall k :: o.Get(U64OptionName(k)) == Err(UnsupportedOption)
    ensures forall k :: o.Set(U64OptionName(k), v) == Err(UnsupportedOption)
  {
    forall k: ByteOption
      ensures o.GetU64(ByteOptionName(k)) == Err(UnsupportedOption)
      ensures o.SetU64(ByteOptionName(k), x) == Err(UnsupportedOption)
    {
      ByteOptionNameIsLower(k);
      NameSpacesDisjoint(ByteOptionName(k));
    }
    forall k: U64Option
      ensures o.Get(U64OptionName(k)) == Err(UnsupportedOption)
      ensures o.Set(U64OptionName(k), v) == Err(UnsupportedOption)
    {
      U64OptionNameIsLower(k);
      NameSpacesDisjoint(U64OptionName(k));
    }
  }

  /** In a new bag every known name reads as `OptionNotSet`; unknown names stay `UnsupportedOption`. */
  lemma DefaultIsUnset(name: string)
    ensures Unset.Get(name) == Err(if ByteOptionNamed(name).Some? then OptionNotSet else UnsupportedOption)
    ensures Unset.GetU64(name) == Err(if U64OptionNamed(name).Some? then OptionNotSet else UnsupportedOption)
  {
  }

  /** A second write to the same slot overwrites the first. */
  lemma OverwriteLastWins(o: Options, n1: string, n2: string, v1: Bytes, v2: Bytes, x1: u64, x2: u64)
    requires EqualIgnoringCase(n1, n2)
    ensures o.Set(n1, v1).Ok? ==> o.Set(n1, v1).value.Set(n2, v2) == o.Set(n2, v2)
    ensures o.SetU64(n1, x1).Ok? ==> o.SetU64(n1, x1).value.SetU64(n2, x2) == o.SetU64(n2, x2)
  {
    LookupIgnoresCase(n1, n2);
  }

  // ---------------------------------------------------------------------------
  // The mutable record and the shared handle to it

  /** The record itself: six optional slots, written in place. */
  class SymmetricOptionsInner {
    var context: Option<Bytes>
    var salt: Option<Bytes>
    var nonce: Option<Bytes>
    var memoryLimit: Option<u64>
    var opsLimit: Option<u64>
    var parallelism: Option<u64>

    /** The record's current value. */
    function Value(): Options
      reads this
    {
      Options(context, salt, nonce, memoryLimit, opsLimit, parallelism)
    }

    /** `Default`: every slot unset. */
    constructor ()
      ensures Value() == Unset
    {
      context, salt, nonce := None, None, None;
      memoryLimit, opsLimit, parallelism := None, None, None;
    }
  }

  /**
   * A handle to a shared record. Clones share one record, so a write through
   * any clone is seen through all of them.
   */
  class SymmetricOptions {
    const inner: SymmetricOptionsInner

    /** `Default`: a handle to a new record with every slot unset. */
    constructor ()
      ensures fresh(inner)
      ensures inner.Value() == Unset
    {
      inner := new SymmetricOptionsInner();
    }

    constructor Sharing(inner: SymmetricOptionsInner)
      ensures this.inner == inner
    {
      this.inner := inner;
    }

    /** `clone`: a new handle to the same record. */
    method Clone() returns (c: SymmetricOptions)
      ensures fresh(c)
      ensures c.inner == inner
    {
      c := new SymmetricOptions.Sharing(inner);
    }

    /** `set`: stores `value` in the byte-string slot `name` selects; on failure nothing changes. */
    method Set(name: string, value: Bytes) returns (r: Result<()>)
      modifies inner
      ensures match old(inner.Value()).Set(name, value)
              case Ok(o) => r == Ok(()) && inner.Value() == o
              case Err(e) => r == Err(e) && inner.Value() == old(inner.Value())
    {
      match ByteOptionNamed(name) {
        case None =>
          return Err(UnsupportedOption);
        case Some(Context) =>
          inner.context := Some(value);
        case Some(Salt) =>
          inner.salt := Some(value);
        case Some(Nonce) =>
          inner.nonce := Some(value);
      }
      r := Ok(());
    }

    /** `get`: the byte string stored under `name`. */
    method Get(name: string) returns (r: Result<Bytes>)
      ensures r == inner.Value().Get(name)
    {
      var value: Option<Bytes>;
      match ByteOptionNamed(name) {
        case None =>
          return Err(UnsupportedOption);
        case Some(Context) =>
          value := inner.context;
        case Some(Salt) =>
          value := inner.salt;
        case Some(Nonce) =>
          value := inner.nonce;
      }
      r := if value.Some? then Ok(value.value) else Err(OptionNotSet);
    }

    /** `set_u64`: stores `value` in the `u64` slot `name` selects; on failure nothing changes. */
    method SetU64(name: string, value: u64) returns (r: Result<()>)
      modifies inner
      ensures match old(inner.Value()).SetU64(name, value)
              case Ok(o) => r == Ok(()) && inner.Value() == o
              case Err(e) => r == Err(e) && inner.Value() == old(inner.Value())
    {
      match U64OptionNamed(name) {
        case None =>
          return Err(UnsupportedOption);
        case Some(MemoryLimit) =>
          inner.memoryLimit := Some(value);
        case Some(OpsLimit) =>
          inner.opsLimit := Some(value);
        case Some(Parallelism) =>
          inner.parallelism := Some(value);
      }
      r := Ok(());
    }

    /** `get_u64`: the integer stored under `name`. */
    method GetU64(name: string) returns (r: Result<u64>)
      ensures r == inner.Value().GetU64(name)
    {
      var value: Option<u64>;
      match U64OptionNamed(name) {
        case None =>
          return Err(UnsupportedOption);
        case Some(MemoryLimit) =>
          value := inner.memoryLimit;
        case Some(OpsLimit) =>
          value := inner.opsLimit;
        case Some(Parallelism) =>
          value := inner.parallelism;
      }
      r := if value.Some? then Ok(value.value) else Err(OptionNotSet);
    }
  }

  /**
   * A nonce written through one handle is read back unchanged through a clone
   * that was taken before the write: clones share one record rather than
   * copying it.
   */
  method NonceSharedAcrossClones(nonce: Bytes) returns (observed: Result<Bytes>)
    ensures observed == Ok(nonce)
  {
    var options := new SymmetricOptions();
    var shared := options.Clone();
    ByteOptionNamedIff("nonce", Nonce);
    assert EqualIgnoringCase("nonce", ByteOptionName(Nonce));
    var written := options.Set("nonce", nonce);
    observed := shared.Get("nonce");
  }
}
