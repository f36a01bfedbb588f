/** Key-value state of applications: how keys are written, and the limits a schema puts on them. */
module StateSchema {
  import opened Accounts
  import opened Limits
  import opened Wrappers

  const MAX_KEY_BYTES := 64
  const MAX_KEY_VAL_BYTES := 128

  // ----- keys as text -----

  function DigitChar(d: nat): char
    requires d < 10
  {
    "0123456789"[d]
  }

  function Decimal(n: nat): (s: string)
    ensures s != ""
  {
    if n < 10 then [DigitChar(n)] else Decimal(n / 10) + [DigitChar(n % 10)]
  }

  function Number(s: string): nat {
    if s == "" then 0
    else Number(s[..|s| - 1]) * 10 + if '0' <= s[|s| - 1] <= '9' then (s[|s| - 1] - '0') as nat else 0
  }

  /** The bytes of a key in decimal, separated by commas. */
  function KeyText(key: seq<byte>): string {
    if key == [] then ""
    else if |key| == 1 then Decimal(key[0] as nat)
    else Decimal(key[0] as nat) + ("," + KeyText(key[1..]))
  }

  function Split(s: string): (parts: seq<string>)
    ensures |parts| > 0
  {
    if s == "" then [""]
    else
      var rest := Split(s[1..]);
      if s[0] == ',' then [""] + rest else [[s[0]] + rest[0]] + rest[1..]
  }

  function Numbers(parts: seq<string>): seq<byte> {
    if parts == [] then [] else [(Number(parts[0]) % 256) as byte] + Numbers(parts[1..])
  }

  function DecodeKey(text: string): seq<byte> {
    Numbers(Split(text))
  }

  lemma {:induction false} NumberOfDecimal(n: nat)
    ensures Number(Decimal(n)) == n
  {
    if n >= 10 {
      NumberOfDecimal(n / 10);
      assert Decimal(n)[..|Decimal(n)| - 1] == Decimal(n / 10);
    } else {
      assert Decimal(n)[..0] == "";
    }
  }

  lemma {:induction false} NoComma(n: nat)
    ensures ',' !in Decimal(n)
  {
    if n >= 10 {
      NoComma(n / 10);
    }
  }

  lemma {:induction false} SplitOnePart(w: string)
    requires ',' !in w
    ensures Split(w) == [w]
  {
    if w != "" {
      SplitOnePart(w[1..]);
      assert [w[0]] + w[1..] == w;
    }
  }

  lemma {:induction false} SplitFirstPart(w: string, s: string)
    requires ',' !in w
    ensures Split(w + ("," + s)) == [w] + Split(s)
  {
    if w == "" {
      assert w + ("," + s) == "," + s && ("," + s)[1..] == s;
    } else {
      SplitFirstPart(w[1..], s);
      assert (w + ("," + s))[1..] == w[1..] + ("," + s);
      assert ([w[1..]] + Split(s))[1..] == Split(s) && [w[0]] + w[1..] == w;
    }
  }

  lemma NumbersOfByte(x: byte, parts: seq<string>)
    ensures Numbers([Decimal(x as nat)] + parts) == [x] + Numbers(parts)
  {
    NumberOfDecimal(x as nat);
    assert ([Decimal(x as nat)] + parts)[1..] == parts;
  }

  lemma {:induction false} DecodeNonEmpty(key: seq<byte>)
    requires key != []
    ensures DecodeKey(KeyText(key)) == key
  {
    NoComma(key[0] as nat);
    if |key| == 1 {
      SplitOnePart(KeyText(key));
      NumbersOfByte(key[0], []);
      assert [Decimal(key[0] as nat)] + [] == [KeyText(key)];
    } else {
      SplitFirstPart(Decimal(key[0] as nat), KeyText(key[1..]));
      NumbersOfByte(key[0], Split(KeyText(key[1..])));
      DecodeNonEmpty(key[1..]);
      assert key == [key[0]] + key[1..];
    }
  }

  /** Every key but the empty one is read back as it was written; the empty one is read as one zero byte. */
  lemma {:induction false} DecodeKeyText(key: seq<byte>)
    ensures DecodeKey(KeyText(key)) == if key == [] then [0] else key
  {
    if key != [] {
      DecodeNonEmpty(key);
    } else {
      assert Numbers([""]) == [0] + Numbers([""][1..]);
    }
  }

  lemma {:induction false} KeyTextIsEmptyIff(key: seq<byte>)
    ensures KeyText(key) == "" <==> key == []
  {
  }

  /** Different keys are written differently, the empty key included. */
  lemma {:induction false} KeyTextInjective(a: seq<byte>, b: seq<byte>)
    requires KeyText(a) == KeyText(b)
    ensures a == b
  {
    DecodeKeyText(a);
    DecodeKeyText(b);
    KeyTextIsEmptyIff(a);
    KeyTextIsEmptyIff(b);
  }

  // ----- limits -----

  datatype StackElem = Uint(n: nat) | Bytes(b: seq<byte>)
  datatype AppState = AppState(keyValue: map<string, StackElem>, schema: Schema)

  function KeyValLengthOk(key: seq<byte>, value: StackElem): bool {
    |key| <= MAX_KEY_BYTES && (value.Bytes? ==> |key| + |value.b| <= MAX_KEY_VAL_BYTES)
  }

  ghost function UintKeys(kv: map<string, StackElem>): set<string> {
    set k | k in kv && kv[k].Uint?
  }

  ghost function ByteKeys(kv: map<string, StackElem>): set<string> {
    set k | k in kv && kv[k].Bytes?
  }

  /** Every entry under one of `keys` obeys the limits on lengths. */
  ghost predicate LengthsOk(kv: map<string, StackElem>, keys: set<string>) {
    forall k :: k in keys && k in kv ==> KeyValLengthOk(DecodeKey(k), kv[k])
  }

  ghost predicate ValidState(st: AppState) {
    && LengthsOk(st.keyValue, st.keyValue.Keys)
    && |UintKeys(st.keyValue)| <= st.schema.uints
    && |ByteKeys(st.keyValue)| <= st.schema.byteSlices
  }

  /** Taking `k` out of `todo` takes one element out of its part in `s` if `k` is in `s`, else none. */
  lemma TakeOut(s: set<string>, todo: set<string>, k: string)
    requires k in todo
    ensures |s * todo| == |s * (todo - {k})| + (if k in s then 1 else 0)
  {
    if k in s {
      assert s * (todo - {k}) == s * todo - {k};
    } else {
      assert s * (todo - {k}) == s * todo;
    }
  }

  lemma LengthsOneMore(kv: map<string, StackElem>, todo: set<string>, k: string)
    requires k in todo && todo <= kv.Keys
    requires LengthsOk(kv, kv.Keys - todo) && KeyValLengthOk(DecodeKey(k), kv[k])
    ensures LengthsOk(kv, kv.Keys - (todo - {k}))
  {
  }

  /** Counts the entries of each kind while checking the length of every key and value. */
  method AssertValidSchema(st: AppState) returns (r: Result<(), Error>)
    ensures r == if ValidState(st) then Success(()) else Failure(InvalidSchema)
  {
    var kv := st.keyValue;
    var numUint, byteSlices := 0, 0;
    var todo := kv.Keys;
    assert UintKeys(kv) * todo == UintKeys(kv) && ByteKeys(kv) * todo == ByteKeys(kv);
    while todo != {}
      invariant todo <= kv.Keys
      invariant LengthsOk(kv, kv.Keys - todo)
      invariant numUint + |UintKeys(kv) * todo| == |UintKeys(kv)|
      invariant byteSlices + |ByteKeys(kv) * todo| == |ByteKeys(kv)|
    {
      var key :| key in todo;
      if !KeyValLengthOk(DecodeKey(key), kv[key]) {
        return Failure(InvalidSchema);
      }
      LengthsOneMore(kv, todo, key);
      TakeOut(UintKeys(kv), todo, key);
      TakeOut(ByteKeys(kv), todo, key);
      if kv[key].Bytes? {
        byteSlices := byteSlices + 1;
      } else {
        numUint := numUint + 1;
      }
      todo := todo - {key};
    }
    assert UintKeys(kv) * todo == {} && ByteKeys(kv) * todo == {} && kv.Keys - todo == kv.Keys;
    if numUint > st.schema.uints || byteSlices > st.schema.byteSlices {
      return Failure(InvalidSchema);
    }
    return Success(());
  }

  function Written(st: AppState, key: seq<byte>, value: StackElem): AppState {
    st.(keyValue := st.keyValue[KeyText(key) := value])
  }

  function Read(st: AppState, key: seq<byte>): Option<StackElem> {
    if KeyText(key) in st.keyValue then Some(st.keyValue[KeyText(key)]) else None
  }

  /** The length limits as they are meant, with the empty key counted as one byte. */
  predicate WithinLimits(key: seq<byte>, value: StackElem) {
    |key| <= MAX_KEY_BYTES
    && (value.Bytes? ==> (if key == [] then 1 else |key|) + |value.b| <= MAX_KEY_VAL_BYTES)
  }

  /** The check on the text of a key is the check on the key. */
  lemma {:induction false} LengthCheckIff(key: seq<byte>, value: StackElem)
    ensures KeyValLengthOk(DecodeKey(KeyText(key)), value) <==> WithinLimits(key, value)
  {
    DecodeKeyText(key);
  }

  /** A write is seen under its key and under no other. */
  lemma ReadWritten(st: AppState, key: seq<byte>, value: StackElem, other: seq<byte>)
    ensures Read(Written(st, key, value), other) == if other == key then Some(value) else Read(st, other)
  {
    if KeyText(other) == KeyText(key) {
      KeyTextInjective(other, key);
    }
  }

  /** The state of the applications an account created or opted in to. */
  class AppStates {
    var appsLocalState: map<nat, AppState>
    var createdApps: map<nat, AppState>

    constructor ()
      ensures appsLocalState == map[] && createdApps == map[]
    {
      appsLocalState, createdApps := map[], map[];
    }

    /** The write happens before the check; the caller drops the whole state when it throws. */
    method SetLocalState(appID: nat, key: seq<byte>, value: StackElem) returns (r: Result<(), Error>)
      modifies this`appsLocalState
      ensures appID !in old(appsLocalState) ==> r == Failure(AppNotFound) && appsLocalState == old(appsLocalState)
      ensures appID in old(appsLocalState) ==>
                var after := Written(old(appsLocalState)[appID], key, value);
                && appsLocalState == old(appsLocalState)[appID := after]
                && r == if ValidState(after) then Success(()) else Failure(InvalidSchema)
    {
      if appID !in appsLocalState {
        return Failure(AppNotFound);
      }
      appsLocalState := appsLocalState[appID := Written(appsLocalState[appID], key, value)];
      r := AssertValidSchema(appsLocalState[appID]);
    }

    method SetGlobalState(appID: nat, key: seq<byte>, value: StackElem) returns (r: Result<(), Error>)
      modifies this`createdApps
      ensures appID !in old(createdApps) ==> r == Failure(AppNotFound) && createdApps == old(createdApps)
      ensures appID in old(createdApps) ==>
                var after := Written(old(createdApps)[appID], key, value);
                && createdApps == old(createdApps)[appID := after]
                && r == if ValidState(after) then Success(()) else Failure(InvalidSchema)
    {
      if appID !in createdApps {
        return Failure(AppNotFound);
      }
      createdApps := createdApps[appID := Written(createdApps[appID], key, value)];
      r := AssertValidSchema(createdApps[appID]);
    }
  }

  // ----- runs of writes -----

  datatype Write = Write(key: seq<byte>, value: StackElem)

  /** A write that fails is undone with the transaction it belongs to. */
  ghost function Kept(st: AppState, w: Write): AppState {
    var after := Written(st, w.key, w.value);
    if ValidState(after) then after else st
  }

  ghost function RunWrites(st: AppState, ws: seq<Write>): AppState
    decreases |ws|
  {
    if ws == [] then st else RunWrites(Kept(st, ws[0]), ws[1..])
  }

  /** How many entries there are of each kind when `value` has been written under `key`. */
  ghost function UintsAfter(st: AppState, key: seq<byte>, value: StackElem): nat {
    |set k | k in st.keyValue && k != KeyText(key) && st.keyValue[k].Uint?| + (if value.Uint? then 1 else 0)
  }

  ghost function BytesAfter(st: AppState, key: seq<byte>, value: StackElem): nat {
    |set k | k in st.keyValue && k != KeyText(key) && st.keyValue[k].Bytes?| + (if value.Bytes? then 1 else 0)
  }

  /** A write into a valid state is accepted exactly if the key has at most 64 bytes, a byte value with
      its key at most 128, an empty key counting as one, and the schema has room for the entries of
      each kind, the overwritten one not counted. */
  lemma WriteAcceptedIff(st: AppState, key: seq<byte>, value: StackElem)
    requires ValidState(st)
    ensures ValidState(Written(st, key, value)) <==>
            && |key| <= 64
            && (value.Bytes? ==> (if key == [] then 1 else |key|) + |value.b| <= 128)
            && UintsAfter(st, key, value) <= st.schema.uints
            && BytesAfter(st, key, value) <= st.schema.byteSlices
  {
    LengthCheckIff(key, value);
    LengthsOfWrite(st.keyValue, KeyText(key), value);
    UintsOfWrite(st, key, value);
    BytesOfWrite(st, key, value);
  }

  lemma UintsOfWrite(st: AppState, key: seq<byte>, value: StackElem)
    ensures |UintKeys(Written(st, key, value).keyValue)| == UintsAfter(st, key, value)
  {
    var kv, text := st.keyValue, KeyText(key);
    var others := set k | k in kv && k != text && kv[k].Uint?;
    assert UintKeys(kv[text := value]) == others + if value.Uint? then {text} else {};
  }

  lemma BytesOfWrite(st: AppState, key: seq<byte>, value: StackElem)
    ensures |ByteKeys(Written(st, key, value).keyValue)| == BytesAfter(st, key, value)
  {
    var kv, text := st.keyValue, KeyText(key);
    var others := set k | k in kv && k != text && kv[k].Bytes?;
    assert ByteKeys(kv[text := value]) == others + if value.Bytes? then {text} else {};
  }

  lemma LengthsOfWrite(kv: map<string, StackElem>, text: string, value: StackElem)
    requires LengthsOk(kv, kv.Keys)
    ensures LengthsOk(kv[text := value], kv[text := value].Keys) <==> KeyValLengthOk(DecodeKey(text), value)
  {
    assert text in kv[text := value].Keys;
  }

  /** Whatever is written, an application's state stays within its schema, and every value that can
      be read under a key obeys the limits on lengths. */
  lemma {:induction false} WritesStayWithinSchema(schema: Schema, st: AppState, ws: seq<Write>, key: seq<byte>)
    requires ValidState(st) && st.schema == schema
    ensures var end := RunWrites(st, ws);
            && ValidState(end) && end.schema == schema
            && |set k | k in end.keyValue && end.keyValue[k].Uint?| <= schema.uints
            && |set k | k in end.keyValue && end.keyValue[k].Bytes?| <= schema.byteSlices
            && (Read(end, key).Some? ==> WithinLimits(key, Read(end, key).value))
    decreases |ws|
  {
    if ws != [] {
      WritesStayWithinSchema(schema, Kept(st, ws[0]), ws[1..], key);
    } else if Read(st, key).Some? {
      LengthCheckIff(key, Read(st, key).value);
    }
  }
}
