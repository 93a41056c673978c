/**
 * The sequential parts of the ingestion pipeline (core/data_pipeline.py): converting
 * Plaid transaction records, merging the results gathered from all connectors, and
 * flattening transactions into processed records batch by batch.
 */
module DataIngestion {
  import opened Wrappers
  import opened Reals

  /** A decoded JSON value as found in a Plaid response. */
  datatype Json = JNull | JBool(b: bool) | JNum(x: real) | JStr(s: string) | JArr(items: seq<Json>) | JObj(fields: map<string, Json>)

  /** A parsed date-time, carrying its ISO-8601 rendering (`isoformat()`). */
  datatype DateTime = DateTime(isoformat: string)

  /**
   * A fetched bank transaction. Python does not enforce the dataclass's field types,
   * so the fields copied straight out of the response keep their JSON values.
   */
  datatype Transaction = Transaction(
    id: Json,
    userId: string,
    amount: real,
    currency: Json,
    merchant: Json,
    description: Json,
    transactionDate: DateTime,
    category: Option<string>,
    merchantCategoryCode: Json)

  // ---------------------------------------------------------------------------
  // Plaid record conversion
  // ---------------------------------------------------------------------------

  /** `abs(v)`: numbers and booleans have an absolute value; any other value raises. */
  function AbsOf(v: Json): (a: Option<real>)
    ensures a.Some? ==> a.value >= 0.0
    ensures a.Some? <==> v.JNum? || v.JBool?
  {
    match v
    case JNum(x) => Some(Abs(x))
    case JBool(b) => Some(if b then 1.0 else 0.0)
    case _ => None
  }

  /** `d.get(key, default)`. */
  function GetOr(d: map<string, Json>, key: string, default: Json): Json
  {
    if key in d then d[key] else default
  }

  /** The record is an object with the required keys, a numeric or boolean amount and a date `parseIso` accepts. */
  predicate Convertible(txn: Json, parseIso: string -> Option<DateTime>)
  {
    txn.JObj?
    && "transaction_id" in txn.fields && "amount" in txn.fields && "iso_currency_code" in txn.fields && "date" in txn.fields
    && AbsOf(txn.fields["amount"]).Some?
    && txn.fields["date"].JStr? && parseIso(txn.fields["date"].s).Some?
  }

  /**
   * The `Transaction(...)` built from one Plaid record: `None` when a required key
   * (`transaction_id`, `amount`, `iso_currency_code`, `date`) is missing, the amount
   * has no absolute value, or the date is not a string that `parseIso` accepts.
   */
  function ToTransaction(txn: Json, parseIso: string -> Option<DateTime>): Option<Transaction>
  {
    if !txn.JObj? then None
    else
      var d := txn.fields;
      if "transaction_id" !in d || "amount" !in d || "iso_currency_code" !in d || "date" !in d then None
      else
        match AbsOf(d["amount"])
        case None => None
        case Some(amount) =>
          match d["date"]
          case JStr(iso) =>
            (match parseIso(iso)
             case None => None
             case Some(date) =>
               Some(Transaction(d["transaction_id"], "plaid_user", amount, d["iso_currency_code"],
                                GetOr(d, "merchant_name", JStr("Unknown")), GetOr(d, "name", JStr("")),
                                date, None, GetOr(d, "personal_finance_category", JNull))))
          case _ => None
  }

  /** Conversion succeeds exactly on convertible records and copies or defaults each field. */
  lemma ToTransactionFields(txn: Json, parseIso: string -> Option<DateTime>)
    ensures ToTransaction(txn, parseIso).Some? <==> Convertible(txn, parseIso)
    ensures Convertible(txn, parseIso) ==>
              var t := ToTransaction(txn, parseIso).value;
              var d := txn.fields;
              t.id == d["transaction_id"] && t.userId == "plaid_user"
              && t.amount == AbsOf(d["amount"]).value && t.amount >= 0.0
              && t.currency == d["iso_currency_code"]
              && t.merchant == GetOr(d, "merchant_name", JStr("Unknown"))
              && t.description == GetOr(d, "name", JStr(""))
              && t.transactionDate == parseIso(d["date"].s).value
              && t.category.None?
              && t.merchantCategoryCode == GetOr(d, "personal_finance_category", JNull)
  {
  }

  /** The conversions of the longest prefix of `items` whose records all convert. */
  function ConvertPrefix(items: seq<Json>, parseIso: string -> Option<DateTime>): seq<Transaction>
  {
    if |items| == 0 then []
    else
      match ToTransaction(items[0], parseIso)
      case None => []
      case Some(t) => [t] + ConvertPrefix(items[1..], parseIso)
  }

  /** Record `i` of the result is the conversion of record `i`, and the record after the result, if any, fails to convert. */
  lemma {:induction false} ConvertPrefixIsLongest(items: seq<Json>, parseIso: string -> Option<DateTime>)
    ensures |ConvertPrefix(items, parseIso)| <= |items|
    ensures forall i :: 0 <= i < |ConvertPrefix(items, parseIso)| ==> ToTransaction(items[i], parseIso) == Some(ConvertPrefix(items, parseIso)[i])
    ensures |ConvertPrefix(items, parseIso)| < |items| ==> ToTransaction(items[|ConvertPrefix(items, parseIso)|], parseIso).None?
    decreases |items|
  {
    if |items| != 0 && ToTransaction(items[0], parseIso).Some? {
      ConvertPrefixIsLongest(items[1..], parseIso);
      assert forall i :: 1 <= i < |items| ==> items[1..][i - 1] == items[i];
    }
  }

  /** The outcome of the transactions request: it raised, or it answered with a status and a body that may not decode. */
  datatype PlaidResponse = RequestRaised | Response(status: int, body: Option<Json>)

  /** The records a response carries: `data.get("transactions", [])` when it is a list, none otherwise. */
  function ResponseItems(response: PlaidResponse): seq<Json>
  {
    if response.Response? && response.status == 200 && response.body.Some? && response.body.value.JObj? then
      match GetOr(response.body.value.fields, "transactions", JArr([]))
      case JArr(items) => items
      case _ => []
    else []
  }

  /** Every fetched transaction belongs to `plaid_user` and has a nonnegative amount. */
  lemma FetchedTransactionsAreNormalised(response: PlaidResponse, parseIso: string -> Option<DateTime>)
    ensures forall t :: t in ConvertPrefix(ResponseItems(response), parseIso) ==> t.userId == "plaid_user" && t.amount >= 0.0
  {
    var items := ResponseItems(response);
    var ts := ConvertPrefix(items, parseIso);
    ConvertPrefixIsLongest(items, parseIso);
    forall t | t in ts
      ensures t.userId == "plaid_user" && t.amount >= 0.0
    {
      var i :| 0 <= i < |ts| && ts[i] == t;
      assert ToTransaction(items[i], parseIso) == Some(t);
      ToTransactionFields(items[i], parseIso);
    }
  }

  /**
   * The conversion loop of `fetch_transactions`: records are converted in order; the
   * first one that raises ends the loop, and the exception handler returns what was
   * converted so far. A failed request, a non-200 status or an undecodable body yields
   * nothing.
   */
  method FetchTransactions(response: PlaidResponse, parseIso: string -> Option<DateTime>) returns (transactions: seq<Transaction>)
    ensures transactions == ConvertPrefix(ResponseItems(response), parseIso)
  {
    transactions := [];
    var items := ResponseItems(response);
    for i := 0 to |items|
      invariant ConvertPrefix(items, parseIso) == transactions + ConvertPrefix(items[i..], parseIso)
    {
      assert items[i..][0] == items[i] && items[i..][1..] == items[i + 1..];
      var t := ToTransaction(items[i], parseIso);
      if t.None? {
        return;
      }
      transactions := transactions + [t.value];
    }
    assert items[|items|..] == [];
  }

  // ---------------------------------------------------------------------------
  // Merging gathered results
  // ---------------------------------------------------------------------------

  /** What `asyncio.gather(..., return_exceptions=True)` yields for one connector. */
  datatype Gathered = Fetched(transactions: seq<Transaction>) | Raised(error: string)

  /** The in-order concatenation of the successful results. */
  function Merged(results: seq<Gathered>): seq<Transaction>
  {
    if |results| == 0 then []
    else
      var last := results[|results| - 1];
      Merged(results[..|results| - 1]) + (if last.Fetched? then last.transactions else [])
  }

  /** Merging distributes over concatenation of result lists. */
  lemma {:induction false} MergedAppend(a: seq<Gathered>, b: seq<Gathered>)
    ensures Merged(a + b) == Merged(a) + Merged(b)
    decreases |b|
  {
    if |b| == 0 {
      assert a + b == a;
    } else {
      var b' := b[..|b| - 1];
      assert (a + b)[..|a + b| - 1] == a + b';
      MergedAppend(a, b');
    }
  }

  /** Exception results contribute nothing. */
  lemma {:induction false} MergedSkipsRaised(results: seq<Gathered>, i: nat)
    requires i < |results| && results[i].Raised?
    ensures Merged(results) == Merged(results[..i]) + Merged(results[i + 1..])
  {
    assert results == results[..i] + [results[i]] + results[i + 1..];
    MergedAppend(results[..i] + [results[i]], results[i + 1..]);
    MergedAppend(results[..i], [results[i]]);
    assert [results[i]][..0] == [];
  }

  /** A successful result contributes exactly its own transactions, in order, at its place. */
  lemma {:induction false} MergedKeepsFetched(results: seq<Gathered>, i: nat)
    requires i < |results| && results[i].Fetched?
    ensures Merged(results) == Merged(results[..i]) + results[i].transactions + Merged(results[i + 1..])
  {
    assert results == results[..i] + [results[i]] + results[i + 1..];
    MergedAppend(results[..i] + [results[i]], results[i + 1..]);
    MergedAppend(results[..i], [results[i]]);
    assert [results[i]][..0] == [];
  }

  /** The merged list is as long as all successful results together. */
  function FetchedCount(results: seq<Gathered>): nat
  {
    if |results| == 0 then 0
    else FetchedCount(results[..|results| - 1]) + (if results[|results| - 1].Fetched? then |results[|results| - 1].transactions| else 0)
  }

  lemma {:induction false} MergedLength(results: seq<Gathered>)
    ensures |Merged(results)| == FetchedCount(results)
    decreases |results|
  {
    if |results| != 0 {
      MergedLength(results[..|results| - 1]);
    }
  }

  /** A fetch task: one connector asked for the given number of days. */
  datatype FetchTask<C> = FetchTask(connector: C, daysBack: int)

  // ---------------------------------------------------------------------------
  // Processing
  // ---------------------------------------------------------------------------

  /** The dictionary `process_batch` emits for one transaction. */
  datatype ProcessedRecord = ProcessedRecord(
    id: Json,
    userId: string,
    amount: real,
    merchant: Json,
    description: Json,
    date: string,
    ingestedAt: string)

  /** The processed records for all of `ts`: record `k` copies transaction `k` and takes the `k`-th clock reading. */
  function ProcessedAll(ts: seq<Transaction>, clock: nat -> string): (r: seq<ProcessedRecord>)
    ensures |r| == |ts|
    ensures forall k :: 0 <= k < |ts| ==> r[k] == Process(ts[k], clock(k))
  {
    seq(|ts|, k requires 0 <= k < |ts| => Process(ts[k], clock(k)))
  }

  function Process(t: Transaction, now: string): ProcessedRecord
  {
    ProcessedRecord(t.id, t.userId, t.amount, t.merchant, t.description, t.transactionDate.isoformat, now)
  }

  class DataPipeline<C> {
    const connectors: seq<C>
    const batchSize: int := 100
    const maxRetries: int := 3

    constructor (connectors: seq<C>)
      ensures this.connectors == connectors
    {
      this.connectors := connectors;
    }

    /** The list comprehension of `ingest_all_transactions`: exactly one task per connector, in connector order. */
    function FetchTasks(daysBack: int := 90): (tasks: seq<FetchTask<C>>)
      ensures |tasks| == |connectors|
      ensures forall i :: 0 <= i < |connectors| ==> tasks[i] == FetchTask(connectors[i], daysBack)
    {
      seq(|connectors|, i requires 0 <= i < |connectors| => FetchTask(connectors[i], daysBack))
    }

    /** The merge loop of `ingest_all_transactions` over the gathered results. */
    method IngestAllTransactions(results: seq<Gathered>) returns (all: seq<Transaction>)
      ensures all == Merged(results)
    {
      all := [];
      for i := 0 to |results|
        invariant all == Merged(results[..i])
      {
        assert results[..i + 1][..i] == results[..i];
        if results[i].Fetched? {
          all := all + results[i].transactions;
        }
      }
      assert results[..|results|] == results;
    }

    /** `process_batch`: the records for all transactions, walked in slices of `batchSize`. */
    method ProcessBatch(transactions: seq<Transaction>, clock: nat -> string) returns (processed: seq<ProcessedRecord>)
      ensures processed == ProcessedAll(transactions, clock)
    {
      processed := ProcessInBatches(transactions, clock, batchSize);
    }
  }

  /**
   * The nested loops of `process_batch` for a step of `batchSize`: one record per
   * transaction, the `k`-th taking the `k`-th clock reading. The result does not depend
   * on the batch size.
   */
  method ProcessInBatches(transactions: seq<Transaction>, clock: nat -> string, batchSize: int)
    returns (processed: seq<ProcessedRecord>)
    requires batchSize >= 1
    ensures processed == ProcessedAll(transactions, clock)
  {
    processed := [];
    var i := 0;
    while i < |transactions|
      invariant 0 <= i <= |transactions| + batchSize - 1
      invariant |processed| == (if i < |transactions| then i else |transactions|)
      invariant processed == ProcessedAll(transactions[..|processed|], clock)
      decreases |transactions| - i
    {
      var batch := transactions[i..if i + batchSize < |transactions| then i + batchSize else |transactions|];
      for j := 0 to |batch|
        invariant |processed| == i + j
        invariant processed == ProcessedAll(transactions[..i + j], clock)
      {
        processed := processed + [Process(batch[j], clock(i + j))];
      }
      i := i + batchSize;
    }
    assert transactions[..|transactions|] == transactions;
  }
}
