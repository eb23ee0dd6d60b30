/**
 The bytes of the state account (solana_smart_contracts/programs/solana_smart_contracts/src/lib.rs,
 LordsPotState and migrate_state): the Borsh layout, the legacy layout that is a prefix of it, and
 the migration that rewrites the account in place.
 */
module StateLayout {
  import opened Wrappers
  import LordsPot

  type Byte = x: int | 0 <= x < 256

  const DISCRIMINATOR_SIZE: nat := 8
  const KEY_SIZE: nat := 32
  const RESERVED_SIZE: nat := 96
  const LEGACY_STATE_SIZE: nat := 60
  const LEGACY_ADMIN_OFFSET: nat := 28
  const NEW_STATE_SIZE: nat := 246
  const STATE_VERSION: Byte := 2

  type Bytes = seq<Byte>

  /** What a legacy account holds. */
  datatype Legacy = Legacy(normalMax: Byte, bonusMax: Byte, ticketPrice: nat, ongoingEpoch: nat, bump: Byte, paused: bool, admin: Bytes)

  /** What migration adds. */
  datatype Added = Added(
    version: Byte,
    relayFeeBase: nat,
    relayFeePerTicket: nat,
    feeRecipient: Bytes,
    maxTicketsPerPurchase: Byte,
    maxClaimAmount: nat,
    treasuryAuthority: Bytes,
    reserved: Bytes)

  datatype State = State(legacy: Legacy, added: Added)

  // ---------------------------------------------------------------------------------
  // Little-endian integers
  // ---------------------------------------------------------------------------------

  function Le(n: nat, size: nat): (b: Bytes)
    ensures |b| == size
  {
    if size == 0 then [] else [n % 256] + Le(n / 256, size - 1)
  }

  function Value(b: Bytes): nat {
    if |b| == 0 then 0 else b[0] + 256 * Value(b[1..])
  }

  function Limit(size: nat): nat {
    if size == 0 then 1 else 256 * Limit(size - 1)
  }

  lemma {:induction false} ValueOfLe(n: nat, size: nat)
    requires n < Limit(size)
    ensures Value(Le(n, size)) == n
  {
    if size > 0 {
      ValueOfLe(n / 256, size - 1);
      assert Le(n, size)[1..] == Le(n / 256, size - 1);
    }
  }

  lemma LowByte(low: Byte, high: nat, limit: nat)
    requires high < limit
    ensures (low + 256 * high) % 256 == low && (low + 256 * high) / 256 == high
    ensures low + 256 * high < 256 * limit
  {
  }

  lemma {:induction false} LeOfValue(b: Bytes)
    ensures Value(b) < Limit(|b|) && Le(Value(b), |b|) == b
  {
    if |b| > 0 {
      var rest := b[1..];
      LeOfValue(rest);
      LowByte(b[0], Value(rest), Limit(|rest|));
      assert Le(Value(b), |b|) == [b[0]] + Le(Value(rest), |rest|);
      assert b == [b[0]] + rest;
    }
  }

  // ---------------------------------------------------------------------------------
  // The layout
  // ---------------------------------------------------------------------------------

  predicate FitsLegacy(s: Legacy) {
    s.ticketPrice < Limit(8) && s.ongoingEpoch < Limit(8) && |s.admin| == KEY_SIZE
  }

  predicate FitsAdded(a: Added) {
    && a.relayFeeBase < Limit(8) && a.relayFeePerTicket < Limit(8) && a.maxClaimAmount < Limit(8)
    && |a.feeRecipient| == KEY_SIZE && |a.treasuryAuthority| == KEY_SIZE && |a.reserved| == RESERVED_SIZE
  }

  predicate FitsState(s: State) {
    FitsLegacy(s.legacy) && FitsAdded(s.added)
  }

  function BoolByte(b: bool): Byte {
    if b then 1 else 0
  }

  /** 52 bytes */
  function EncodeLegacy(s: Legacy): Bytes {
    [s.normalMax, s.bonusMax] + Le(s.ticketPrice, 8) + Le(s.ongoingEpoch, 8) + [s.bump, BoolByte(s.paused)] + s.admin
  }

  /** 186 bytes */
  function EncodeAdded(a: Added): Bytes {
    [a.version] + Le(a.relayFeeBase, 8) + Le(a.relayFeePerTicket, 8) + a.feeRecipient
    + [a.maxTicketsPerPurchase] + Le(a.maxClaimAmount, 8) + a.treasuryAuthority + a.reserved
  }

  /** `discriminator` is the account type's eight-byte tag. */
  function Encode(discriminator: Bytes, s: State): Bytes {
    discriminator + EncodeLegacy(s.legacy) + EncodeAdded(s.added)
  }

  /** A bool byte other than 0 and 1 does not decode. */
  function DecodeLegacy(b: Bytes): Option<Legacy>
    requires |b| == 52
  {
    if b[19] > 1 then None
    else Some(Legacy(b[0], b[1], Value(b[2..10]), Value(b[10..18]), b[18], b[19] == 1, b[20..52]))
  }

  function DecodeAdded(b: Bytes): Added
    requires |b| == 186
  {
    Added(b[0], Value(b[1..9]), Value(b[9..17]), b[17..49], b[49], Value(b[50..58]), b[58..90], b[90..186])
  }

  datatype Error =
    | InvalidMaxTicketsPerPurchase
    | InvalidMaxClaimAmount
    | InvalidTreasuryAuthority
    | UnexpectedStateSize
    | InvalidStateAccount
    | Unauthorized
    | AccountDidNotDeserialize

  function Decode(discriminator: Bytes, data: Bytes): Result<State, Error>
    requires |discriminator| == DISCRIMINATOR_SIZE
  {
    if |data| < NEW_STATE_SIZE || data[..8] != discriminator || DecodeLegacy(data[8..60]).None? then Err(AccountDidNotDeserialize)
    else Ok(State(DecodeLegacy(data[8..60]).value, DecodeAdded(data[60..246])))
  }

  lemma LegacyRoundTrip(s: Legacy)
    requires FitsLegacy(s)
    ensures |EncodeLegacy(s)| == 52 && DecodeLegacy(EncodeLegacy(s)) == Some(s)
  {
    var b := EncodeLegacy(s);
    assert b[2..10] == Le(s.ticketPrice, 8) && b[10..18] == Le(s.ongoingEpoch, 8) && b[20..52] == s.admin;
    ValueOfLe(s.ticketPrice, 8);
    ValueOfLe(s.ongoingEpoch, 8);
  }

  lemma LegacyBytes(b: Bytes)
    requires |b| == 52 && DecodeLegacy(b).Some?
    ensures FitsLegacy(DecodeLegacy(b).value) && EncodeLegacy(DecodeLegacy(b).value) == b
  {
    LeOfValue(b[2..10]);
    LeOfValue(b[10..18]);
    assert b == [b[0], b[1]] + b[2..10] + b[10..18] + [b[18], b[19]] + b[20..52];
  }

  lemma AddedRoundTrip(a: Added)
    requires FitsAdded(a)
    ensures |EncodeAdded(a)| == 186 && DecodeAdded(EncodeAdded(a)) == a
  {
    var b := EncodeAdded(a);
    assert b[1..9] == Le(a.relayFeeBase, 8) && b[9..17] == Le(a.relayFeePerTicket, 8) && b[17..49] == a.feeRecipient;
    assert b[50..58] == Le(a.maxClaimAmount, 8) && b[58..90] == a.treasuryAuthority && b[90..186] == a.reserved;
    ValueOfLe(a.relayFeeBase, 8);
    ValueOfLe(a.relayFeePerTicket, 8);
    ValueOfLe(a.maxClaimAmount, 8);
  }

  lemma AddedBytes(b: Bytes)
    requires |b| == 186
    ensures FitsAdded(DecodeAdded(b)) && EncodeAdded(DecodeAdded(b)) == b
  {
    LeOfValue(b[1..9]);
    LeOfValue(b[9..17]);
    LeOfValue(b[50..58]);
    assert b == [b[0]] + b[1..9] + b[9..17] + b[17..49] + [b[49]] + b[50..58] + b[58..90] + b[90..186];
  }

  /** Every state can be written down and read back. */
  lemma DecodeUndoesEncode(discriminator: Bytes, s: State)
    requires |discriminator| == DISCRIMINATOR_SIZE && FitsState(s)
    ensures |Encode(discriminator, s)| == NEW_STATE_SIZE
    ensures Decode(discriminator, Encode(discriminator, s)) == Ok(s)
  {
    LegacyRoundTrip(s.legacy);
    AddedRoundTrip(s.added);
    var data := Encode(discriminator, s);
    assert data[..8] == discriminator && data[8..60] == EncodeLegacy(s.legacy) && data[60..246] == EncodeAdded(s.added);
  }

  /** Every full-size account that reads back at all is the one encoding of what it reads back to. */
  lemma EncodeUndoesDecode(discriminator: Bytes, data: Bytes)
    requires |discriminator| == DISCRIMINATOR_SIZE && |data| == NEW_STATE_SIZE && Decode(discriminator, data).Ok?
    ensures FitsState(Decode(discriminator, data).value)
    ensures Encode(discriminator, Decode(discriminator, data).value) == data
  {
    LegacyBytes(data[8..60]);
    AddedBytes(data[60..246]);
    ThreeParts(data);
    var s := Decode(discriminator, data).value;
    assert EncodeLegacy(s.legacy) == data[8..60] && EncodeAdded(s.added) == data[60..246];
  }

  lemma ThreeParts(data: Bytes)
    requires |data| == NEW_STATE_SIZE
    ensures data[..8] + data[8..60] + data[60..246] == data
  {
  }

  // ---------------------------------------------------------------------------------
  // Migration
  // ---------------------------------------------------------------------------------

  /** The arguments of migrate_state, and who signed. */
  datatype Request = Request(
    relayFeeBase: nat,
    relayFeePerTicket: nat,
    feeRecipient: Bytes,
    maxTicketsPerPurchase: Byte,
    maxClaimAmount: nat,
    treasuryAuthority: Bytes,
    signer: Bytes)

  predicate FitsRequest(r: Request) {
    && r.relayFeeBase < Limit(8) && r.relayFeePerTicket < Limit(8) && r.maxClaimAmount < Limit(8)
    && |r.feeRecipient| == KEY_SIZE && |r.treasuryAuthority| == KEY_SIZE && |r.signer| == KEY_SIZE
  }

  function Zeros(size: nat): (b: Bytes)
    ensures |b| == size && forall i :: 0 <= i < size ==> b[i] == 0
  {
    seq(size, _ => 0)
  }

  function RequestFault(r: Request): Option<Error> {
    if !(1 <= r.maxTicketsPerPurchase <= LordsPot.HARD_MAX_TICKETS_PER_PURCHASE) then Some(InvalidMaxTicketsPerPurchase)
    else if r.maxClaimAmount == 0 then Some(InvalidMaxClaimAmount)
    else if r.treasuryAuthority == Zeros(KEY_SIZE) then Some(InvalidTreasuryAuthority)
    else None
  }

  /** What is wrong with an account that is not of full size yet. */
  function AccountFault(discriminator: Bytes, data: Bytes, signer: Bytes): Option<Error> {
    if |data| != LEGACY_STATE_SIZE then Some(UnexpectedStateSize)
    else if data[..8] != discriminator then Some(InvalidStateAccount)
    else if data[LEGACY_ADMIN_OFFSET..LEGACY_ADMIN_OFFSET + KEY_SIZE] != signer then Some(Unauthorized)
    else if data[27] > 1 then Some(AccountDidNotDeserialize)
    else None
  }

  function NewFields(r: Request, reserved: Bytes): Added {
    Added(STATE_VERSION, r.relayFeeBase, r.relayFeePerTicket, r.feeRecipient, r.maxTicketsPerPurchase, r.maxClaimAmount, r.treasuryAuthority, reserved)
  }

  class StateAccount {
    const discriminator: Bytes
    var data: Bytes

    constructor (discriminator: Bytes, data: Bytes)
      requires |discriminator| == DISCRIMINATOR_SIZE
      ensures this.discriminator == discriminator && this.data == data
    {
      this.discriminator, this.data := discriminator, data;
    }

    /** The account is stretched with zeros, read as the new type, given its new fields and written back. */
    method MigrateState(r: Request) returns (error: Option<Error>)
      requires |discriminator| == DISCRIMINATOR_SIZE && FitsRequest(r)
      modifies this
      ensures error == if RequestFault(r).Some? then RequestFault(r)
                       else if |old(data)| >= NEW_STATE_SIZE then None
                       else AccountFault(discriminator, old(data), r.signer)
      ensures error.None? <==>
        && 1 <= r.maxTicketsPerPurchase <= 100 && r.maxClaimAmount > 0 && (exists i :: 0 <= i < 32 && r.treasuryAuthority[i] != 0)
        && (|old(data)| >= 246
            || (|old(data)| == 60 && old(data)[..8] == discriminator && old(data)[28..60] == r.signer && old(data)[27] <= 1))
      ensures error.Some? || |old(data)| >= NEW_STATE_SIZE ==> data == old(data)
      ensures error.None? && |old(data)| < NEW_STATE_SIZE ==>
        data == old(data) + EncodeAdded(NewFields(r, Zeros(RESERVED_SIZE)))
    {
      error := RequestFault(r);
      if error.Some? || |data| >= NEW_STATE_SIZE {
        return;
      }
      if |data| != LEGACY_STATE_SIZE {
        return Some(UnexpectedStateSize);
      }
      if data[..8] != discriminator {
        return Some(InvalidStateAccount);
      }
      if r.signer != data[LEGACY_ADMIN_OFFSET..LEGACY_ADMIN_OFFSET + KEY_SIZE] {
        return Some(Unauthorized);
      }
      var before := data;
      data := data + Zeros(NEW_STATE_SIZE - |data|);
      var decoded := Decode(discriminator, data);
      assert data[8..60][19] == before[27];
      if decoded.Err? {
        data := before;
        return Some(AccountDidNotDeserialize);
      }
      var state := decoded.value;
      assert data[60..246] == Zeros(NEW_STATE_SIZE - LEGACY_STATE_SIZE);
      assert state.added.reserved == Zeros(RESERVED_SIZE);
      state := state.(added := NewFields(r, state.added.reserved));
      LegacyBytes(data[8..60]);
      assert data[8..60] == before[8..60] && before == before[..8] + before[8..60];
      data := Encode(discriminator, state);
      error := None;
    }
  }

  /** A legacy account that its admin may migrate. */
  ghost predicate Migratable(discriminator: Bytes, data: Bytes, r: Request) {
    && |discriminator| == DISCRIMINATOR_SIZE && FitsRequest(r) && RequestFault(r).None?
    && |data| == LEGACY_STATE_SIZE && AccountFault(discriminator, data, r.signer).None?
  }

  /** The migrated account reads back as the legacy fields, untouched, with the new fields beside them. */
  lemma MigrationPreservesMeaning(discriminator: Bytes, data: Bytes, r: Request)
    requires Migratable(discriminator, data, r)
    ensures DecodeLegacy(data[8..60]).Some?
    ensures var migrated := data + EncodeAdded(NewFields(r, Zeros(RESERVED_SIZE)));
      && |migrated| == NEW_STATE_SIZE && migrated[..LEGACY_STATE_SIZE] == data
      && Decode(discriminator, migrated) == Ok(State(DecodeLegacy(data[8..60]).value, NewFields(r, Zeros(RESERVED_SIZE))))
      && DecodeLegacy(data[8..60]).value.admin == r.signer
  {
    var added := NewFields(r, Zeros(RESERVED_SIZE));
    AddedRoundTrip(added);
    var migrated := data + EncodeAdded(added);
    assert migrated[..8] == data[..8] && migrated[8..60] == data[8..60] && migrated[60..246] == EncodeAdded(added);
    assert data[8..60][20..52] == data[28..60];
  }

  /** Where each new field ends up. */
  lemma FieldOffsets(discriminator: Bytes, data: Bytes, r: Request)
    requires Migratable(discriminator, data, r)
    ensures var m := data + EncodeAdded(NewFields(r, Zeros(RESERVED_SIZE)));
      && |m| == NEW_STATE_SIZE
      && m[60] == STATE_VERSION && m[109] == r.maxTicketsPerPurchase
      && Value(m[61..69]) == r.relayFeeBase && Value(m[69..77]) == r.relayFeePerTicket && Value(m[110..118]) == r.maxClaimAmount
      && m[77..109] == r.feeRecipient && m[118..150] == r.treasuryAuthority && m[150..246] == Zeros(RESERVED_SIZE)
  {
    var added := NewFields(r, Zeros(RESERVED_SIZE));
    AddedRoundTrip(added);
    var tail := EncodeAdded(added);
    var m := data + tail;
    TailSlice(data, tail, 1, 9);
    TailSlice(data, tail, 9, 17);
    TailSlice(data, tail, 17, 49);
    TailSlice(data, tail, 50, 58);
    TailSlice(data, tail, 58, 90);
    TailSlice(data, tail, 90, 186);
    assert DecodeAdded(tail) == added;
  }

  /** An eight-byte number starts with its lowest byte. */
  lemma LittleEndian(b: Bytes)
    requires |b| == 8
    ensures Value(b) == b[0] as int + 0x100 * (b[1] as int) + 0x1_0000 * (b[2] as int) + 0x100_0000 * (b[3] as int)
                        + 0x1_0000_0000 * LowFour(b[4..])
  {
    Skips(b, 1);
    Skips(b, 2);
    Skips(b, 3);
    Skips(b, 4);
    var c := b[4..];
    Skips(c, 1);
    Skips(c, 2);
    Skips(c, 3);
    Skips(c, 4);
  }

  function LowFour(b: Bytes): int
    requires |b| == 4
  {
    b[0] as int + 0x100 * (b[1] as int) + 0x1_0000 * (b[2] as int) + 0x100_0000 * (b[3] as int)
  }

  lemma Skips(b: Bytes, n: nat)
    requires 0 < n <= |b|
    ensures Value(b[n - 1..]) == b[n - 1] as int + 256 * Value(b[n..])
  {
    assert b[n - 1..][1..] == b[n..];
  }

  /** Where each field of the old state is found, before migration and after. */
  lemma LegacyOffsets(discriminator: Bytes, s: State)
    requires |discriminator| == DISCRIMINATOR_SIZE && FitsState(s)
    ensures var m := Encode(discriminator, s);
      && |m| == 246 && m[..8] == discriminator
      && m[8] == s.legacy.normalMax && m[9] == s.legacy.bonusMax && m[26] == s.legacy.bump
      && Value(m[10..18]) == s.legacy.ticketPrice && Value(m[18..26]) == s.legacy.ongoingEpoch
      && m[27] == (if s.legacy.paused then 1 else 0) && m[28..60] == s.legacy.admin
  {
    LegacyRoundTrip(s.legacy);
    AddedRoundTrip(s.added);
    var m, bytes := Encode(discriminator, s), EncodeLegacy(s.legacy);
    assert m[8..60] == bytes;
    assert m[10..18] == bytes[2..10] && m[18..26] == bytes[10..18] && m[28..60] == bytes[20..52];
    assert bytes[2..10] == Le(s.legacy.ticketPrice, 8) && bytes[10..18] == Le(s.legacy.ongoingEpoch, 8) && bytes[20..52] == s.legacy.admin;
    ValueOfLe(s.legacy.ticketPrice, 8);
    ValueOfLe(s.legacy.ongoingEpoch, 8);
  }

  lemma TailSlice(head: Bytes, tail: Bytes, from: nat, to: nat)
    requires |head| == LEGACY_STATE_SIZE && from <= to <= |tail|
    ensures (head + tail)[60 + from..60 + to] == tail[from..to]
  {
  }

  /** Migrating again, whoever asks and with whatever valid settings, changes nothing. */
  method MigrateTwice(account: StateAccount, first: Request, second: Request) returns (again: Option<Error>)
    requires |account.discriminator| == DISCRIMINATOR_SIZE && FitsRequest(second)
    requires Migratable(account.discriminator, account.data, first)
    modifies account
    ensures account.data == old(account.data) + EncodeAdded(NewFields(first, Zeros(RESERVED_SIZE)))
    ensures again == RequestFault(second)
  {
    MigrationPreservesMeaning(account.discriminator, account.data, first);
    var error := account.MigrateState(first);
    again := account.MigrateState(second);
  }
}
