/**
 The tables of the server's SQLite database, the history query with its decoding loop, and the
 audit of an existing database (server/src/database.rs).
 */
module Database {
  import opened Wrappers
  import opened MachineInts
  import opened Bytes
  import opened ServerProtocol

  /** A row of `users`, keyed by `username`. */
  datatype UserRow = UserRow(passwordHash: Text, availableTokens: int)

  type Users = map<Text, UserRow>

  /** The rows of `history` for one username, keyed by the timestamp BLOB. */
  type UserHistory = map<Blob, Blob>

  /** A row of the history query. */
  datatype Row = Row(timestamp: Blob, hash: Blob)

  const HISTORY_LIMIT: nat := 100

  // ----- The byte-level store and what the SQL engine returns from it -----

  /** Every key is 16 bytes and every value as long as a signature: what `add_user_record` writes. */
  predicate WellFormed(table: UserHistory) {
    forall k :: k in table ==> |k| == 16 && |table[k]| == RSA_KEY_SIZE_IN_BYTES
  }

  ghost predicate Listed(rows: seq<Row>, key: Blob) {
    exists i :: 0 <= i < |rows| && rows[i].timestamp == key
  }

  /** `ORDER BY timestamp DESC LIMIT n` over one user's rows, with BLOBs compared byte by byte. */
  ghost predicate IsQueryResult(table: UserHistory, n: nat, rows: seq<Row>) {
    && |rows| == Min(n, |table|)
    && (forall i :: 0 <= i < |rows| ==> rows[i].timestamp in table && table[rows[i].timestamp] == rows[i].hash)
    && (forall i, j :: 0 <= i < j < |rows| ==> BlobLess(rows[j].timestamp, rows[i].timestamp))
    && (forall k, i :: k in table && !Listed(rows, k) && 0 <= i < |rows| ==> BlobLess(k, rows[i].timestamp))
  }

  // ----- The numeric view -----

  /** The instants a set of 16-byte keys stands for. */
  ghost function Instants(keys: set<Blob>): set<Timestamp>
    requires forall k :: k in keys ==> |k| == 16
  {
    set k | k in keys :: FromBe(k)
  }

  /** The same records as a finite map from points in time to signatures. */
  ghost function Numeric(table: UserHistory): (m: map<Timestamp, RsaSignature>)
    requires WellFormed(table)
    ensures forall k :: k in table ==> FromBe(k) in m && m[FromBe(k)] == table[k]
    ensures forall t :: t in m ==> ToBeBytes(t) in table
  {
    map t: Timestamp | t in Instants(table.Keys) :: table[ToBeBytes(t)]
  }

  lemma {:induction false} LargestExists(s: set<Timestamp>) returns (t: Timestamp)
    requires s != {}
    ensures t in s && forall u :: u in s ==> u <= t
    decreases |s|
  {
    var one :| one in s;
    var rest := s - {one};
    assert s == rest + {one};
    if rest == {} {
      t := one;
    } else {
      var top := LargestExists(rest);
      t := if one < top then top else one;
    }
  }

  ghost function Newest(m: map<Timestamp, RsaSignature>): (t: Timestamp)
    requires m != map[]
    ensures t in m && forall u :: u in m ==> u <= t
  {
    assert exists t: Timestamp :: t in m && forall u :: u in m ==> u <= t by {
      assert m.Keys != {};
      var t := LargestExists(m.Keys);
      assert t in m;
    }
    var t: Timestamp :| t in m && forall u :: u in m ==> u <= t;
    t
  }

  /** The reference: repeatedly take the newest record, at most n times. */
  ghost function Latest(m: map<Timestamp, RsaSignature>, n: nat): (records: seq<HistoryRecord>)
    decreases n
  {
    if n == 0 || m == map[] then []
    else
      var t := Newest(m);
      [HistoryRecord(m[t], t)] + Latest(m - {t}, n - 1)
  }

  ghost predicate Kept(records: seq<HistoryRecord>, t: Timestamp) {
    exists i :: 0 <= i < |records| && records[i].timestamp == t
  }

  ghost predicate AllStored(m: map<Timestamp, RsaSignature>, records: seq<HistoryRecord>) {
    forall i :: 0 <= i < |records| ==> records[i].timestamp in m && m[records[i].timestamp] == records[i].sign
  }

  ghost predicate Descending(records: seq<HistoryRecord>) {
    forall i, j :: 0 <= i < j < |records| ==> records[j].timestamp < records[i].timestamp
  }

  ghost predicate RestIsOlder(m: map<Timestamp, RsaSignature>, records: seq<HistoryRecord>) {
    forall t, i :: t in m && !Kept(records, t) && 0 <= i < |records| ==> t < records[i].timestamp
  }

  /** Strictly descending, as many as allowed, all stored, and every record left out is older. */
  ghost predicate IsLatest(m: map<Timestamp, RsaSignature>, n: nat, records: seq<HistoryRecord>) {
    |records| == Min(n, |m|) && AllStored(m, records) && Descending(records) && RestIsOlder(m, records)
  }

  lemma RemoveOne(m: map<Timestamp, RsaSignature>, t: Timestamp)
    requires t in m
    ensures |m - {t}| == |m| - 1
  {
    assert (m - {t}).Keys == m.Keys - {t};
    assert |m.Keys - {t}| == |m.Keys| - 1;
  }

  /** A record later than all others goes in front. */
  lemma NewestFirst(m: map<Timestamp, RsaSignature>, t: Timestamp, tail: seq<HistoryRecord>)
    requires t in m && (forall u :: u in m ==> u <= t)
    requires AllStored(m - {t}, tail) && Descending(tail) && RestIsOlder(m - {t}, tail)
    ensures var records := [HistoryRecord(m[t], t)] + tail;
            AllStored(m, records) && Descending(records) && RestIsOlder(m, records)
  {
    var records := [HistoryRecord(m[t], t)] + tail;
    assert forall i :: 0 < i < |records| ==> records[i] == tail[i - 1];
    forall u, i | u in m && !Kept(records, u) && 0 <= i < |records| ensures u < records[i].timestamp {
      assert records[0].timestamp != u;
      KeptInTail(records, u);
    }
  }

  lemma KeptInTail(records: seq<HistoryRecord>, u: Timestamp)
    requires |records| > 0 && records[0].timestamp != u
    ensures Kept(records[1..], u) <==> Kept(records, u)
  {
    if i :| 0 <= i < |records| && records[i].timestamp == u {
      assert records[1..][i - 1] == records[i];
    }
    if j :| 0 <= j < |records| - 1 && records[1..][j].timestamp == u {
      assert records[j + 1].timestamp == u;
    }
  }

  lemma {:induction false} LatestIsLatest(m: map<Timestamp, RsaSignature>, n: nat)
    ensures IsLatest(m, n, Latest(m, n))
    decreases n
  {
    if n != 0 && m != map[] {
      var rest := m - {Newest(m)};
      LatestIsLatest(rest, n - 1);
      RemoveOne(m, Newest(m));
      NewestFirst(m, Newest(m), Latest(rest, n - 1));
    } else {
      assert m == map[] ==> |m| == 0;
    }
  }

  lemma TailIsLatest(m: map<Timestamp, RsaSignature>, records: seq<HistoryRecord>)
    requires |records| > 0
    requires AllStored(m, records) && Descending(records) && RestIsOlder(m, records)
    ensures var rest := m - {records[0].timestamp};
            AllStored(rest, records[1..]) && Descending(records[1..]) && RestIsOlder(rest, records[1..])
  {
    forall u, i | u in m && u != records[0].timestamp && !Kept(records[1..], u) && 0 <= i < |records| - 1
      ensures u < records[1..][i].timestamp
    {
      KeptInTail(records, u);
      assert records[1..][i] == records[i + 1];
    }
  }

  lemma FirstIsNewest(m: map<Timestamp, RsaSignature>, records: seq<HistoryRecord>, u: Timestamp)
    requires |records| > 0 && u in m
    requires AllStored(m, records) && Descending(records) && RestIsOlder(m, records)
    ensures u <= records[0].timestamp
  {
    if Kept(records, u) {
      var i :| 0 <= i < |records| && records[i].timestamp == u;
    }
  }

  lemma {:induction false} SameLatest(m: map<Timestamp, RsaSignature>, a: seq<HistoryRecord>, b: seq<HistoryRecord>)
    requires |a| == |b|
    requires AllStored(m, a) && Descending(a) && RestIsOlder(m, a)
    requires AllStored(m, b) && Descending(b) && RestIsOlder(m, b)
    ensures a == b
    decreases |a|
  {
    if a != [] {
      FirstIsNewest(m, a, b[0].timestamp);
      FirstIsNewest(m, b, a[0].timestamp);
      TailIsLatest(m, a);
      TailIsLatest(m, b);
      SameLatest(m - {a[0].timestamp}, a[1..], b[1..]);
      assert a == [a[0]] + a[1..] && b == [b[0]] + b[1..];
    }
  }

  /** The four conditions determine the result. */
  lemma LatestIsUnique(m: map<Timestamp, RsaSignature>, n: nat, records: seq<HistoryRecord>)
    requires IsLatest(m, n, records)
    ensures records == Latest(m, n)
  {
    LatestIsLatest(m, n);
    SameLatest(m, records, Latest(m, n));
  }

  // ----- The decoding loop -----

  datatype UserHistoryError = TimestampIntegrityViolated(raw: Blob) | HashIntegrityViolated(raw: Blob)

  function DecodeRow(row: Row): (r: Result<HistoryRecord, UserHistoryError>) {
    if |row.timestamp| != 16 then Err(TimestampIntegrityViolated(row.timestamp))
    else if |row.hash| != RSA_KEY_SIZE_IN_BYTES then Err(HashIntegrityViolated(row.hash))
    else Ok(HistoryRecord(row.hash, FromBe(row.timestamp)))
  }

  /** Decodes row by row and stops at the first damaged one. */
  method ReadRecords(rows: seq<Row>) returns (r: Result<seq<HistoryRecord>, UserHistoryError>)
    ensures r.Ok? <==> forall i :: 0 <= i < |rows| ==> |rows[i].timestamp| == 16 && |rows[i].hash| == 256
    ensures r.Ok? ==>
              && |r.value| == |rows|
              && forall i :: 0 <= i < |rows| ==>
                   ToBeBytes(r.value[i].timestamp) == rows[i].timestamp && r.value[i].sign == rows[i].hash
    ensures r.Err? ==> exists i ::
              && 0 <= i < |rows| && DecodeRow(rows[i]) == Err(r.error)
              && r.error.raw == (if |rows[i].timestamp| != 16 then rows[i].timestamp else rows[i].hash)
              && r.error.TimestampIntegrityViolated? == (|rows[i].timestamp| != 16)
              && forall j :: 0 <= j < i ==> |rows[j].timestamp| == 16 && |rows[j].hash| == 256
    ensures r == DecodeRows(rows)
  {
    var records: seq<HistoryRecord> := [];
    var i := 0;
    while i < |rows|
      invariant 0 <= i <= |rows| && |records| == i
      invariant forall j :: 0 <= j < i ==> DecodeRow(rows[j]) == Ok(records[j])
      invariant DecodeRows(rows[..i]) == Ok(records)
    {
      assert rows[..i + 1][..i] == rows[..i];
      match DecodeRow(rows[i]) {
        case Err(e) =>
          DamagedRowDecides(rows, i);
          return Err(e);
        case Ok(record) => records := records + [record];
      }
      i := i + 1;
    }
    assert rows[..i] == rows;
    r := Ok(records);
  }

  function DecodeRows(rows: seq<Row>): (r: Result<seq<HistoryRecord>, UserHistoryError>)
    ensures r.Ok? ==> |r.value| == |rows|
  {
    if rows == [] then Ok([])
    else match DecodeRows(rows[..|rows| - 1])
      case Err(e) => Err(e)
      case Ok(records) =>
        match DecodeRow(rows[|rows| - 1])
        case Err(e) => Err(e)
        case Ok(record) => Ok(records + [record])
  }

  lemma {:induction false} DamagedRowDecides(rows: seq<Row>, n: nat)
    requires n < |rows| && DecodeRows(rows[..n]).Ok? && DecodeRow(rows[n]).Err?
    ensures DecodeRows(rows) == Err(DecodeRow(rows[n]).error)
    decreases |rows|
  {
    if n == |rows| - 1 {
    } else {
      var shorter := rows[..|rows| - 1];
      assert shorter[..n] == rows[..n];
      DamagedRowDecides(shorter, n);
    }
  }

  lemma {:induction false} DecodesPointwise(rows: seq<Row>)
    requires forall i :: 0 <= i < |rows| ==> |rows[i].timestamp| == 16 && |rows[i].hash| == RSA_KEY_SIZE_IN_BYTES
    ensures DecodeRows(rows).Ok?
    ensures forall i :: 0 <= i < |rows| ==>
              DecodeRows(rows).value[i] == HistoryRecord(rows[i].hash, FromBe(rows[i].timestamp))
    decreases |rows|
  {
    if rows != [] {
      DecodesPointwise(rows[..|rows| - 1]);
    }
  }

  // ----- The byte-level query computes the numeric reference -----

  lemma {:induction false} InstantsSize(keys: set<Blob>)
    requires forall k :: k in keys ==> |k| == 16
    ensures |Instants(keys)| == |keys|
    decreases |keys|
  {
    if keys != {} {
      var k :| k in keys;
      var rest := keys - {k};
      InstantsSize(rest);
      assert Instants(keys) == Instants(rest) + {FromBe(k)};
      assert FromBe(k) !in Instants(rest) by {
        forall j | j in rest ensures FromBe(j) != FromBe(k) { TimestampBytes(0, j, k); }
      }
    }
  }

  lemma NumericSize(table: UserHistory)
    requires WellFormed(table)
    ensures |Numeric(table)| == |table|
  {
    InstantsSize(table.Keys);
    assert Numeric(table).Keys == Instants(table.Keys);
  }

  /**
   On every table the server writes, whatever the engine returns for the byte-wise query decodes
   to the newest records of the numeric map, newest first.
   */
  lemma QueryDecodesToLatest(table: UserHistory, n: nat, rows: seq<Row>)
    requires WellFormed(table) && IsQueryResult(table, n, rows)
    ensures DecodeRows(rows) == Ok(Latest(Numeric(table), n))
  {
    DecodesPointwise(rows);
    var records := DecodeRows(rows).value;
    var m := Numeric(table);
    NumericSize(table);
    forall i, j | 0 <= i < j < |records| ensures records[j].timestamp < records[i].timestamp {
      TimestampBytes(0, rows[j].timestamp, rows[i].timestamp);
    }
    forall t, i | t in m && !Kept(records, t) && 0 <= i < |records| ensures t < records[i].timestamp {
      var k := ToBeBytes(t);
      TimestampBytes(t, k, rows[i].timestamp);
      assert !Listed(rows, k) by {
        forall j | 0 <= j < |rows| ensures rows[j].timestamp != k { assert records[j].timestamp != t; }
      }
    }
    LatestIsUnique(m, n, records);
  }

  function EncodeRecord(record: HistoryRecord): Row {
    Row(ToBeBytes(record.timestamp), record.sign)
  }

  /** Rows and the records they encode. */
  ghost predicate Encodes(rows: seq<Row>, records: seq<HistoryRecord>) {
    |rows| == |records| && forall i :: 0 <= i < |rows| ==> rows[i] == EncodeRecord(records[i])
  }

  lemma EncodedDescend(rows: seq<Row>, records: seq<HistoryRecord>, i: nat, j: nat)
    requires Encodes(rows, records) && Descending(records) && i < j < |rows|
    ensures BlobLess(rows[j].timestamp, rows[i].timestamp)
  {
    TimestampBytes(records[i].timestamp, rows[j].timestamp, rows[i].timestamp);
    TimestampBytes(records[j].timestamp, rows[j].timestamp, rows[i].timestamp);
  }

  lemma EncodedRestIsOlder(table: UserHistory, rows: seq<Row>, records: seq<HistoryRecord>, k: Blob, i: nat)
    requires WellFormed(table) && Encodes(rows, records) && RestIsOlder(Numeric(table), records)
    requires k in table && !Listed(rows, k) && i < |rows|
    ensures BlobLess(k, rows[i].timestamp)
  {
    assert !Kept(records, FromBe(k)) by {
      forall j | 0 <= j < |records| ensures records[j].timestamp != FromBe(k) { assert rows[j].timestamp != k; }
    }
    TimestampBytes(records[i].timestamp, k, rows[i].timestamp);
  }

  /** The engine always has an answer: the encoded newest records satisfy the byte-wise query. */
  lemma QueryHasAnswer(table: UserHistory, n: nat) returns (rows: seq<Row>)
    requires WellFormed(table)
    ensures IsQueryResult(table, n, rows)
  {
    var m := Numeric(table);
    var records := Latest(m, n);
    LatestIsLatest(m, n);
    NumericSize(table);
    rows := seq(|records|, i requires 0 <= i < |records| => EncodeRecord(records[i]));
    assert Encodes(rows, records);
    forall i, j | 0 <= i < j < |rows| ensures BlobLess(rows[j].timestamp, rows[i].timestamp) {
      EncodedDescend(rows, records, i, j);
    }
    forall k, i | k in table && !Listed(rows, k) && 0 <= i < |rows| ensures BlobLess(k, rows[i].timestamp) {
      EncodedRestIsOlder(table, rows, records, k, i);
    }
  }

  // ----- Auditing an existing database -----

  datatype DataBaseBuildError =
    | UnexpectedTable(name: string)
    | Validation(query: nat)
    | ConstraintViolation(username: Text)
    | Sqlite

  /** A stream of the rows of `users`, in any order. */
  ghost predicate Lists(users: Users, rows: seq<(Text, int)>) {
    && (forall i :: 0 <= i < |rows| ==> rows[i].0 in users && users[rows[i].0].availableTokens == rows[i].1)
    && (forall u :: u in users ==> exists i :: 0 <= i < |rows| && rows[i].0 == u)
  }

  /** sqlx reads the audited column as i32; of its decoder only this is assumed. */
  ghost predicate ReadsI32(asI32: int -> Option<int>) {
    forall x :: -2_147_483_648 <= x <= 2_147_483_647 ==> asI32(x) == Some(x)
  }

  /** What the audit demands of the balances. */
  ghost predicate Auditable(users: Users, asI32: int -> Option<int>) {
    forall u :: u in users ==> users[u].availableTokens >= 0 && asI32(users[u].availableTokens).Some?
  }

  /** A row of the audit as the engine delivers it: an error, or a name and a balance. */
  predicate Passes(row: Option<(Text, int)>, asI32: int -> Option<int>) {
    row.Some? && row.value.1 >= 0 && asI32(row.value.1).Some?
  }

  predicate Expected(name: string) {
    name == "users" || name == "history"
  }

  method Validate(tableNames: Option<seq<string>>, queryWorks: seq<bool>, rows: seq<Option<(Text, int)>>,
                  asI32: int -> Option<int>)
    returns (r: Result<(), DataBaseBuildError>)
    ensures r.Ok? <==>
            && tableNames.Some? && (forall name :: name in tableNames.value ==> name == "users" || name == "history")
            && (forall i :: 0 <= i < |queryWorks| ==> queryWorks[i])
            && (forall i :: 0 <= i < |rows| ==>
                  rows[i].Some? && rows[i].value.1 >= 0 && asI32(rows[i].value.1).Some?)
    ensures r.Err? ==>
            match r.error
            case UnexpectedTable(name) =>
              tableNames.Some? && name in tableNames.value && name != "users" && name != "history"
            case Validation(i) => 0 <= i < |queryWorks| && !queryWorks[i]
            case ConstraintViolation(u) =>
              exists i :: 0 <= i < |rows| && (forall j :: 0 <= j < i ==> Passes(rows[j], asI32)) &&
                          rows[i].Some? && rows[i].value.0 == u && rows[i].value.1 < 0
            case Sqlite =>
              || tableNames == None
              || (exists i :: 0 <= i < |rows| && (rows[i] == None || asI32(rows[i].value.1) == None))
  {
    if tableNames == None { return Err(Sqlite); }
    var names := tableNames.value;
    for i := 0 to |names|
      invariant forall j :: 0 <= j < i ==> Expected(names[j])
    {
      if !Expected(names[i]) {
        assert names[i] in names;
        return Err(UnexpectedTable(names[i]));
      }
    }
    for i := 0 to |queryWorks|
      invariant forall j :: 0 <= j < i ==> queryWorks[j]
    {
      if !queryWorks[i] {
        return Err(Validation(i));
      }
    }
    for i := 0 to |rows|
      invariant forall j :: 0 <= j < i ==> Passes(rows[j], asI32)
    {
      if rows[i] == None || asI32(rows[i].value.1) == None {
        return Err(Sqlite);
      }
      if rows[i].value.1 < 0 {
        return Err(ConstraintViolation(rows[i].value.0));
      }
    }
    r := Ok(());
  }

  /** The order in which the rows arrive does not matter to the verdict. */
  lemma AuditIsOfTheTable(users: Users, rows: seq<(Text, int)>, asI32: int -> Option<int>)
    requires Lists(users, rows)
    ensures (forall i :: 0 <= i < |rows| ==> rows[i].1 >= 0 && asI32(rows[i].1).Some?) <==> Auditable(users, asI32)
  {
    if forall i :: 0 <= i < |rows| ==> rows[i].1 >= 0 && asI32(rows[i].1).Some? {
      forall u | u in users ensures users[u].availableTokens >= 0 && asI32(users[u].availableTokens).Some? {
        var i :| 0 <= i < |rows| && rows[i].0 == u;
      }
    }
  }
}
