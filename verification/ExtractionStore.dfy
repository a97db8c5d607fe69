/** The analysis cache, in memory and on file: the file must give the same
    answers the plain map would. */
module Extractions {
  import opened Wrappers

  datatype CacheKey = CacheKey(docSha256: string, promptVersion: string, modelId: string, schemaVersion: string,
                               validatorVersion: string)

  datatype Cached =
    | Accepted(output: string)
    | Refusal(message: string, tokensIn: nat, tokensOut: nat, cost: real)

  datatype Row = ExtractionRow(key: CacheKey, outcome: Cached) | UnknownStatus(status: string)

  datatype StoreError = UnrecognisedStatus

  type Entries = map<CacheKey, Cached>

  /** Replay: a later row for a key wins; an unknown status stops the load. */
  function ReplayRows(rows: seq<Row>): Result<Entries, StoreError> {
    if rows == [] then Ok(map[])
    else ReplayNext(ReplayRows(rows[..|rows| - 1]), rows[|rows| - 1])
  }

  function ReplayNext(before: Result<Entries, StoreError>, row: Row): Result<Entries, StoreError> {
    if before.Err? then before
    else match row
         case ExtractionRow(key, outcome) => Ok(before.value[key := outcome])
         case UnknownStatus(_) => Err(UnrecognisedStatus)
  }

  lemma ReplayOneMore(rows: seq<Row>, row: Row)
    ensures ReplayRows(rows + [row]) == ReplayNext(ReplayRows(rows), row)
  {
    assert (rows + [row])[..|rows|] == rows;
  }

  lemma {:induction false} ReplayErrSpreads(rows: seq<Row>, more: seq<Row>)
    requires ReplayRows(rows).Err?
    ensures ReplayRows(rows + more) == ReplayRows(rows)
  {
    if more == [] {
      assert rows + more == rows;
    } else {
      ReplayErrSpreads(rows, more[..|more| - 1]);
      assert rows + more == (rows + more[..|more| - 1]) + [more[|more| - 1]];
      ReplayOneMore(rows + more[..|more| - 1], more[|more| - 1]);
    }
  }

  // ---------------------------------------------------------------- what a cache owes

  datatype CachePut = CachePut(key: CacheKey, outcome: Cached)

  /** The answer after a run of puts: the outcome put last under that very key. */
  function Latest(puts: seq<CachePut>, key: CacheKey): Option<Cached> {
    if puts == [] then None
    else if puts[|puts| - 1].key == key then Some(puts[|puts| - 1].outcome)
    else Latest(puts[..|puts| - 1], key)
  }

  function Found(entries: Entries, key: CacheKey): Option<Cached> {
    if key in entries then Some(entries[key]) else None
  }

  ghost predicate Answers(entries: Entries, puts: seq<CachePut>) {
    forall key :: Found(entries, key) == Latest(puts, key)
  }

  lemma OnePut(entries: Entries, puts: seq<CachePut>, key: CacheKey, outcome: Cached)
    requires Answers(entries, puts)
    ensures Answers(entries[key := outcome], puts + [CachePut(key, outcome)])
  {
    assert (puts + [CachePut(key, outcome)])[..|puts|] == puts;
    forall k ensures Found(entries[key := outcome], k) == Latest(puts + [CachePut(key, outcome)], k) {
      assert Found(entries, k) == Latest(puts, k);
    }
  }

  /** The rows a run of puts leaves on file. */
  function RowsOf(puts: seq<CachePut>): (rows: seq<Row>)
    ensures |rows| == |puts|
  {
    seq(|puts|, i requires 0 <= i < |puts| => ExtractionRow(puts[i].key, puts[i].outcome))
  }

  /** Any run of puts leaves a file that loads, and what it loads answers every
      key with the outcome put last. */
  lemma {:induction false} FileAnswers(puts: seq<CachePut>)
    ensures ReplayRows(RowsOf(puts)).Ok? && Answers(ReplayRows(RowsOf(puts)).value, puts)
  {
    if puts != [] {
      var front, last := puts[..|puts| - 1], puts[|puts| - 1];
      FileAnswers(front);
      assert RowsOf(puts) == RowsOf(front) + [ExtractionRow(last.key, last.outcome)];
      ReplayOneMore(RowsOf(front), ExtractionRow(last.key, last.outcome));
      OnePut(ReplayRows(RowsOf(front)).value, front, last.key, last.outcome);
      assert puts == front + [last];
    }
  }

  // ---------------------------------------------------------------- the two caches

  /** The plain in-memory cache, with the puts it has been given. */
  class ExtractionCache {
    var entries: Entries
    ghost var puts: seq<CachePut>

    ghost predicate Valid()
      reads this
    {
      Answers(entries, puts)
    }

    constructor ()
      ensures Valid() && puts == []
    {
      entries, puts := map[], [];
    }

    method Get(key: CacheKey) returns (r: Option<Cached>)
      requires Valid()
      ensures r == Latest(puts, key)
    {
      r := if key in entries then Some(entries[key]) else None;
      assert r == Found(entries, key);
    }

    method Put(key: CacheKey, outcome: Cached)
      requires Valid()
      modifies this
      ensures Valid() && puts == old(puts) + [CachePut(key, outcome)]
    {
      OnePut(entries, puts, key, outcome);
      entries := entries[key := outcome];
      puts := puts + [CachePut(key, outcome)];
    }
  }

  /** The durable one: the same answers, and a file that rebuilds them. */
  class ExtractionCacheStore {
    var entries: Entries
    var file: seq<Row>

    ghost predicate Valid()
      reads this
    {
      ReplayRows(file) == Ok(entries)
    }

    constructor ()
      ensures Valid() && entries == map[] && file == []
    {
      entries, file := map[], [];
    }

    method Get(key: CacheKey) returns (r: Option<Cached>)
      ensures r == Found(entries, key)
    {
      r := if key in entries then Some(entries[key]) else None;
    }

    method Put(key: CacheKey, outcome: Cached)
      requires Valid()
      modifies this
      ensures Valid() && entries == old(entries)[key := outcome]
      ensures file == old(file) + [ExtractionRow(key, outcome)]
    {
      ReplayOneMore(file, ExtractionRow(key, outcome));
      entries := entries[key := outcome];
      file := file + [ExtractionRow(key, outcome)];
    }
  }

  /** The two are interchangeable: given the same puts, the durable store holds
      what the plain cache holds, and so does the store its file loads into. */
  lemma DurableAnswersAsPlain(plain: ExtractionCache, durable: ExtractionCacheStore)
    requires plain.Valid() && durable.Valid() && durable.file == RowsOf(plain.puts)
    ensures durable.entries == plain.entries
    ensures ReplayRows(durable.file) == Ok(plain.entries)
    ensures forall key :: Found(durable.entries, key) == Latest(plain.puts, key)
  {
    FileAnswers(plain.puts);
    forall key ensures Found(durable.entries, key) == Found(plain.entries, key) {
      assert Found(plain.entries, key) == Latest(plain.puts, key);
    }
    assert durable.entries.Keys == plain.entries.Keys by {
      forall key ensures key in durable.entries <==> key in plain.entries {
        assert Found(durable.entries, key) == Found(plain.entries, key);
      }
    }
    forall key | key in plain.entries ensures durable.entries[key] == plain.entries[key] {
      assert Found(durable.entries, key) == Found(plain.entries, key);
    }
  }

  method Open(rows: seq<Row>) returns (r: Result<ExtractionCacheStore, StoreError>)
    ensures match ReplayRows(rows)
            case Err(e) => r == Err(e)
            case Ok(entries) =>
              r.Ok? && fresh(r.value) && r.value.Valid() && r.value.entries == entries && r.value.file == rows
  {
    var store := new ExtractionCacheStore();
    for i := 0 to |rows|
      invariant ReplayRows(rows[..i]) == Ok(store.entries)
    {
      assert rows[..i + 1] == rows[..i] + [rows[i]];
      ReplayOneMore(rows[..i], rows[i]);
      match rows[i] {
        case ExtractionRow(key, outcome) =>
          store.entries := store.entries[key := outcome];
        case UnknownStatus(_) =>
          ReplayErrSpreads(rows[..i + 1], rows[i + 1..]);
          assert rows == rows[..i + 1] + rows[i + 1..];
          return Err(UnrecognisedStatus);
      }
    }
    assert rows[..|rows|] == rows;
    store.file := rows;
    return Ok(store);
  }
}
