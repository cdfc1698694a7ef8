/**
 * One run of the command-line pipeline (`invoice_guard/main.py`): extract
 * the fields of the OCR text, score them against the stored history, find
 * the nearest stored invoices by embedding similarity, score the amount
 * against the vendor's statistics, and only then store the new invoice,
 * its embedding and the vendor's updated statistics.
 */
module GuardMain {
  import opened Wrappers
  import opened Text
  import PyRisk
  import Anomaly
  import ExtractFields

  /** `_dup_prob`: the duplicate probability of the best similarity. */
  function DupProb(topSim: real): (r: real)
    ensures r == 0.0 || r == 0.80 || r == 0.98
  {
    if topSim >= 0.97 then 0.98 else if topSim >= 0.92 then 0.80 else 0.0
  }

  /** The three bands of `_dup_prob`, each as an if-and-only-if. */
  lemma DupProbBands(topSim: real)
    ensures DupProb(topSim) == 0.98 <==> topSim >= 0.97
    ensures DupProb(topSim) == 0.80 <==> 0.92 <= topSim < 0.97
    ensures DupProb(topSim) == 0.0 <==> topSim < 0.92
  {
  }

  /** A higher similarity never gives a lower probability. */
  lemma DupProbMonotone(a: real, b: real)
    requires a <= b
    ensures DupProb(a) <= DupProb(b)
  {
  }

  // ---------------------------------------------------------------- stored rows

  /** A row of the `invoices` table; a NULL column is None. */
  datatype StoredInvoice = StoredInvoice(
    id: int,
    vendorName: Option<string>,
    invoiceNumber: Option<string>,
    invoiceDate: Option<string>,
    totalAmount: Option<real>,
    currency: Option<string>,
    sourceFile: string,
    rawText: string)

  /** A row of `invoice_embeddings` for the one model in use. */
  datatype EmbeddingRow = EmbeddingRow(invoiceId: int, embedding: seq<real>)

  /** A reported neighbour: the stored invoice's id, the rounded similarity, and four of its fields. */
  datatype Neighbor = Neighbor(
    invoiceId: int,
    similarity: real,
    vendorName: Option<string>,
    invoiceNumber: Option<string>,
    totalAmount: Option<real>,
    invoiceDate: Option<string>)

  /**
   * The library calls of a run: the sentence embedding of the text,
   * `cosine_sim`, `round(x, 4)`, and the vendor-statistics update of the
   * store (a running mean and deviation, kept abstract).
   */
  datatype MainEnv = MainEnv(
    embed: string -> seq<real>,
    cosine: (seq<real>, seq<real>) -> real,
    round4: real -> real,
    updateStats: (Option<Anomaly.VendorStats>, real) -> Anomaly.VendorStats)

  /** `fetch_invoice_by_id`: the row with that id, or None. */
  function InvoiceById(invoices: seq<StoredInvoice>, id: int): (r: Option<StoredInvoice>)
    ensures r.Some? ==> r.value in invoices && r.value.id == id
    ensures r.None? <==> forall k :: 0 <= k < |invoices| ==> invoices[k].id != id
  {
    if invoices == [] then None
    else if invoices[0].id == id then Some(invoices[0])
    else InvoiceById(invoices[1..], id)
  }

  /** The history row `score_invoice` reads; a NULL text column reads as "". */
  function HistoryOf(inv: StoredInvoice): PyRisk.HistoryRecord {
    PyRisk.HistoryRecord(
      inv.id,
      inv.vendorName.GetOr(""),
      inv.invoiceNumber.GetOr(""),
      match inv.totalAmount case Some(v) => PyRisk.PyNumber(v) case None => PyRisk.PyNone,
      inv.invoiceDate.GetOr(""))
  }

  /** `fetch_all_invoices`: every stored row, in id order. */
  function History(invoices: seq<StoredInvoice>): (r: seq<PyRisk.HistoryRecord>)
    ensures |r| == |invoices| && forall k :: 0 <= k < |r| ==> r[k] == HistoryOf(invoices[k])
  {
    seq(|invoices|, k requires 0 <= k < |invoices| => HistoryOf(invoices[k]))
  }

  /** The new record as `score_invoice` reads it. */
  function NewOf(rec: ExtractFields.InvoiceRecord): PyRisk.NewInvoice {
    PyRisk.NewInvoice(
      rec.vendorName.GetOr(""),
      rec.invoiceNumber.GetOr(""),
      match rec.totalAmount case Some(v) => PyRisk.PyNumber(v) case None => PyRisk.PyNone,
      rec.invoiceDate.GetOr(""))
  }

  // ---------------------------------------------------------------- neighbours

  /** What the loop appends for one embedding row whose invoice exists. */
  function NeighborOf(row: EmbeddingRow, inv: StoredInvoice, newEmb: seq<real>, env: MainEnv): Neighbor {
    Neighbor(row.invoiceId, env.round4(env.cosine(newEmb, row.embedding)),
             inv.vendorName, inv.invoiceNumber, inv.totalAmount, inv.invoiceDate)
  }

  /** The neighbours the loop collects: one per embedding row whose invoice is found, in row order. */
  function Collected(rows: seq<EmbeddingRow>, invoices: seq<StoredInvoice>, newEmb: seq<real>, env: MainEnv): (r: seq<Neighbor>)
    ensures |r| <= |rows|
    ensures forall k :: 0 <= k < |r| ==> InvoiceById(invoices, r[k].invoiceId).Some?
  {
    if rows == [] then []
    else
      var init := Collected(rows[..|rows| - 1], invoices, newEmb, env);
      var row := rows[|rows| - 1];
      match InvoiceById(invoices, row.invoiceId)
      case None => init
      case Some(inv) => init + [NeighborOf(row, inv, newEmb, env)]
  }

  predicate SortedDesc(s: seq<Neighbor>) {
    forall i, j :: 0 <= i < j < |s| ==> s[i].similarity >= s[j].similarity
  }

  lemma SortedDescCons(h: Neighbor, t: seq<Neighbor>)
    requires SortedDesc(t) && (t == [] || h.similarity >= t[0].similarity)
    ensures SortedDesc([h] + t)
  {
    var r := [h] + t;
    forall i, j | 0 <= i < j < |r| ensures r[i].similarity >= r[j].similarity {
      if i == 0 {
        assert r[j] == t[j - 1] && t[0].similarity >= t[j - 1].similarity;
      } else {
        assert r[i] == t[i - 1] && r[j] == t[j - 1];
      }
    }
  }

  /** Inserts `x` before the first neighbour it is at least as similar as. */
  function InsertDesc(x: Neighbor, t: seq<Neighbor>): (r: seq<Neighbor>)
    requires SortedDesc(t)
    ensures SortedDesc(r)
    ensures |r| == |t| + 1
    ensures multiset(r) == multiset(t) + multiset{x}
    ensures r[0] == x || (t != [] && r[0] == t[0])
  {
    if t == [] then [x]
    else if x.similarity >= t[0].similarity then
      SortedDescCons(x, t);
      [x] + t
    else
      assert SortedDesc(t[1..]) by { assert forall i :: 0 <= i < |t| - 1 ==> t[1..][i] == t[i + 1]; }
      var rest := InsertDesc(x, t[1..]);
      assert multiset(t) == multiset{t[0]} + multiset(t[1..]) by { assert t == [t[0]] + t[1..]; }
      SortedDescCons(t[0], rest);
      [t[0]] + rest
  }

  /**
   * `neighbors.sort(key=similarity, reverse=True)`: sorted by descending
   * similarity, a permutation of its input.
   */
  function SortDesc(s: seq<Neighbor>): (r: seq<Neighbor>)
    ensures SortedDesc(r)
    ensures |r| == |s|
    ensures multiset(r) == multiset(s)
  {
    if s == [] then []
    else
      assert s == [s[0]] + s[1..];
      InsertDesc(s[0], SortDesc(s[1..]))
  }

  /** `top_sim`: the first similarity of the sorted list, 0.0 when it is empty. */
  function TopSim(sorted: seq<Neighbor>): real {
    if sorted == [] then 0.0 else sorted[0].similarity
  }

  /**
   * `top_sim` is the largest similarity of all collected neighbours, taken
   * before the list is cut to three, and 0.0 when there are none.
   */
  lemma TopSimIsMax(s: seq<Neighbor>)
    ensures var t := TopSim(SortDesc(s));
            && (s == [] ==> t == 0.0)
            && (s != [] ==> (exists k :: 0 <= k < |s| && s[k].similarity == t)
                            && forall k :: 0 <= k < |s| ==> s[k].similarity <= t)
  {
    var r := SortDesc(s);
    if s != [] {
      assert |r| == |multiset(r)| == |multiset(s)| == |s|;
      assert r[0] in multiset(s);
      forall k | 0 <= k < |s|
        ensures s[k].similarity <= r[0].similarity
      {
        assert s[k] in multiset(r);
        var j :| 0 <= j < |r| && r[j] == s[k];
      }
    }
  }

  /** Sorting, `top_sim` and the cut to three neighbours. */
  method RankNeighbors(collected: seq<Neighbor>) returns (neighbors: seq<Neighbor>, topSim: real)
    ensures neighbors == Take(SortDesc(collected), 3) && topSim == TopSim(SortDesc(collected))
    ensures |neighbors| == (if |collected| < 3 then |collected| else 3)
    ensures SortedDesc(neighbors) && forall n :: n in neighbors ==> n in collected
  {
    var sorted := SortDesc(collected);
    assert |sorted| == |multiset(sorted)| == |collected|;
    topSim := 0.0;
    if sorted != [] {
      topSim := sorted[0].similarity;
    }
    neighbors := Take(sorted, 3);
    forall n | n in neighbors
      ensures n in collected
    {
      assert n in sorted;
      assert n in multiset(collected);
    }
  }

  // ---------------------------------------------------------------- the run

  /** The `extracted` part of the output; the currency defaults to "USD". */
  datatype Extracted = Extracted(
    vendorName: Option<string>,
    invoiceNumber: Option<string>,
    invoiceDate: Option<string>,
    totalAmount: Option<real>,
    currency: string,
    sourceFile: string)

  datatype RunOutput = RunOutput(
    invoiceId: int,
    extracted: Extracted,
    risk: PyRisk.PyRiskResult,
    dupProb: real,
    neighbors: seq<Neighbor>,
    anomaly: Anomaly.AnomalyVerdict)

  /** A text Python treats as true: present and non-empty. */
  predicate Truthy(s: Option<string>) {
    s.Some? && s.value != ""
  }

  /** `get_vendor_amount_stats`: the vendor's row, if there is one. */
  function StoredStats(stats: map<string, Anomaly.VendorStats>, vendor: string): Option<Anomaly.VendorStats> {
    if vendor in stats then Some(stats[vendor]) else None
  }

  /** `get_vendor_amount_stats(conn, vendor) if vendor else None`. */
  function StatsFor(stats: map<string, Anomaly.VendorStats>, vendor: Option<string>): Option<Anomaly.VendorStats> {
    if Truthy(vendor) then StoredStats(stats, vendor.value) else None
  }

  function StoredOf(id: int, rec: ExtractFields.InvoiceRecord, sourceFile: string, rawText: string): StoredInvoice {
    StoredInvoice(id, rec.vendorName, rec.invoiceNumber, rec.invoiceDate, rec.totalAmount, rec.currency, sourceFile, rawText)
  }

  /** The store behind a run: the invoices, their embeddings, the vendor statistics and the next row id. */
  class GuardStore {
    var invoices: seq<StoredInvoice>
    var embeddings: seq<EmbeddingRow>
    var stats: map<string, Anomaly.VendorStats>
    var nextId: int

    /** Ids increase along the table, and every id in use is below the next one. */
    predicate Valid()
      reads this
    {
      && (forall i, j :: 0 <= i < j < |invoices| ==> invoices[i].id < invoices[j].id)
      && (forall k :: 0 <= k < |invoices| ==> invoices[k].id < nextId)
      && (forall k :: 0 <= k < |embeddings| ==> embeddings[k].invoiceId < nextId)
    }

    constructor()
      ensures Valid() && invoices == [] && embeddings == [] && stats == map[] && nextId == 1
    {
      invoices := [];
      embeddings := [];
      stats := map[];
      nextId := 1;
    }

    /** The neighbour loop of `run`: rows whose invoice is missing are skipped. */
    method CollectNeighbors(newEmb: seq<real>, env: MainEnv) returns (neighbors: seq<Neighbor>)
      ensures neighbors == Collected(embeddings, invoices, newEmb, env)
    {
      neighbors := [];
      var i := 0;
      while i < |embeddings|
        invariant 0 <= i <= |embeddings|
        invariant neighbors == Collected(embeddings[..i], invoices, newEmb, env)
      {
        assert embeddings[..i + 1][..i] == embeddings[..i];
        var row := embeddings[i];
        i := i + 1;
        var sim := env.cosine(newEmb, row.embedding);
        var inv := InvoiceById(invoices, row.invoiceId);
        if inv.None? {
          continue;
        }
        neighbors := neighbors + [Neighbor(row.invoiceId, env.round4(sim), inv.value.vendorName,
                                           inv.value.invoiceNumber, inv.value.totalAmount, inv.value.invoiceDate)];
      }
      assert embeddings[..i] == embeddings;
    }

    /** `insert_invoice`: the new row gets the next id. */
    method Insert(rec: ExtractFields.InvoiceRecord, sourceFile: string, rawText: string) returns (id: int)
      requires Valid()
      modifies this
      ensures Valid()
      ensures id == old(nextId) && nextId == id + 1
      ensures invoices == old(invoices) + [StoredOf(id, rec, sourceFile, rawText)]
      ensures embeddings == old(embeddings) && stats == old(stats)
    {
      id := nextId;
      invoices := invoices + [StoredOf(id, rec, sourceFile, rawText)];
      nextId := nextId + 1;
    }

    /** `upsert_embedding` for a row that is new: the embedding is appended. */
    method AddEmbedding(id: int, embedding: seq<real>)
      requires Valid() && id < nextId
      modifies this
      ensures Valid()
      ensures embeddings == old(embeddings) + [EmbeddingRow(id, embedding)]
      ensures invoices == old(invoices) && stats == old(stats) && nextId == old(nextId)
    {
      embeddings := embeddings + [EmbeddingRow(id, embedding)];
    }

    /** `update_vendor_amount_stats`: the vendor's statistics are replaced by their update with the amount. */
    method RecordAmount(vendor: string, amount: real, env: MainEnv)
      requires Valid()
      modifies this
      ensures Valid()
      ensures stats == old(stats)[vendor := env.updateStats(StoredStats(old(stats), vendor), amount)]
      ensures invoices == old(invoices) && embeddings == old(embeddings) && nextId == old(nextId)
    {
      stats := stats[vendor := env.updateStats(StoredStats(stats, vendor), amount)];
    }

    /**
     * The scoring half of `run`: extraction, the risk score against the
     * stored history, the neighbours and their duplicate probability, and
     * the amount anomaly against the stored vendor statistics.
     */
    method Assess(rawText: string, env: MainEnv, xenv: ExtractFields.ExtractEnv, penv: PyRisk.PyEnv)
      returns (rec: ExtractFields.InvoiceRecord, risk: PyRisk.PyRiskResult, neighbors: seq<Neighbor>,
               dupProb: real, anomaly: Anomaly.AnomalyVerdict)
      ensures rec == ExtractFields.ExtractSpec(rawText, xenv)
      ensures risk == PyRisk.PyRiskSpec(NewOf(rec), History(invoices), penv)
      ensures var collected := Collected(embeddings, invoices, env.embed(rawText), env);
              neighbors == Take(SortDesc(collected), 3) && dupProb == DupProb(TopSim(SortDesc(collected)))
      ensures anomaly == Anomaly.AmountAnomalyScore(rec.totalAmount, StatsFor(stats, rec.vendorName))
    {
      rec := ExtractFields.Extract(rawText, xenv);
      var history := History(invoices);
      risk := PyRisk.ScoreInvoice(NewOf(rec), history, penv);
      var newEmb := env.embed(rawText);
      var collected := CollectNeighbors(newEmb, env);
      var topSim;
      neighbors, topSim := RankNeighbors(collected);
      dupProb := DupProb(topSim);
      var vendor := rec.vendorName;
      var amount := rec.totalAmount;
      var vendorStats := StatsFor(stats, vendor);
      anomaly := Anomaly.AmountAnomalyScore(amount, vendorStats);
    }

    /**
     * `run` without the optional price check: everything is scored against
     * the store as it was before the call, and the new invoice, its
     * embedding and the vendor's statistics are stored afterwards.
     */
    method Run(rawText: string, sourceFile: string, env: MainEnv, xenv: ExtractFields.ExtractEnv, penv: PyRisk.PyEnv)
      returns (out: RunOutput)
      requires Valid()
      modifies this
      ensures Valid()
      ensures var rec := ExtractFields.ExtractSpec(rawText, xenv);
              && out.invoiceId == old(nextId) && nextId == old(nextId) + 1
              && invoices == old(invoices) + [StoredOf(out.invoiceId, rec, sourceFile, rawText)]
              && embeddings == old(embeddings) + [EmbeddingRow(out.invoiceId, env.embed(rawText))]
              && stats == (if Truthy(rec.vendorName) && rec.totalAmount.Some?
                           then old(stats)[rec.vendorName.value := env.updateStats(StoredStats(old(stats), rec.vendorName.value), rec.totalAmount.value)]
                           else old(stats))
              && out.extracted.currency == (if Truthy(rec.currency) then rec.currency.value else "USD")
      ensures var rec := ExtractFields.ExtractSpec(rawText, xenv);
              var collected := Collected(old(embeddings), old(invoices), env.embed(rawText), env);
              && out.risk == PyRisk.PyRiskSpec(NewOf(rec), History(old(invoices)), penv)
              && out.neighbors == Take(SortDesc(collected), 3)
              && out.dupProb == DupProb(TopSim(SortDesc(collected)))
              && out.anomaly == Anomaly.AmountAnomalyScore(rec.totalAmount, StatsFor(old(stats), rec.vendorName))
    {
      var rec, risk, neighbors, dupProb, anomaly := Assess(rawText, env, xenv, penv);
      var id := Insert(rec, sourceFile, rawText);
      AddEmbedding(id, env.embed(rawText));
      if Truthy(rec.vendorName) && rec.totalAmount.Some? {
        RecordAmount(rec.vendorName.value, rec.totalAmount.value, env);
      }
      var currency := if Truthy(rec.currency) then rec.currency.value else "USD";
      out := RunOutput(id, Extracted(rec.vendorName, rec.invoiceNumber, rec.invoiceDate, rec.totalAmount, currency, sourceFile),
                       risk, dupProb, neighbors, anomaly);
    }
  }

  /**
   * An invoice is never scored against itself: the new id is absent from
   * the history the risk score reads, and no reported neighbour carries it.
   */
  lemma NeverScoredAgainstItself(invoices: seq<StoredInvoice>, rows: seq<EmbeddingRow>, nextId: int,
                                 newEmb: seq<real>, env: MainEnv)
    requires forall k :: 0 <= k < |invoices| ==> invoices[k].id < nextId
    ensures forall h :: h in History(invoices) ==> h.id != nextId
    ensures forall n :: n in Take(SortDesc(Collected(rows, invoices, newEmb, env)), 3) ==> n.invoiceId != nextId
  {
    var c := Collected(rows, invoices, newEmb, env);
    var t := Take(SortDesc(c), 3);
    forall n | n in t
      ensures n.invoiceId != nextId
    {
      assert n in SortDesc(c);
      assert n in multiset(c);
      var inv := InvoiceById(invoices, n.invoiceId);
    }
  }
}
