/** The age part of the backend's dashboard statistics
    (`GET /api/dashboard/{collection}`): every student document falls into
    exactly one of five age bands, and each band counts its documents by
    outcome (`Target`). */
module DashboardStats {
  import opened Common

  datatype AgeBucket = Under18 | From18To22 | From23To26 | From27To30 | From31

  /** The bands in the order the bucket map is written. */
  const Buckets: seq<AgeBucket> := [Under18, From18To22, From23To26, From27To30, From31]

  function BucketName(b: AgeBucket): string {
    match b
    case Under18 => "<18"
    case From18To22 => "18-22"
    case From23To26 => "23-26"
    case From27To30 => "27-30"
    case From31 => "31+"
  }

  /** A student document, with the two fields the statistics read. */
  datatype StudentDoc = StudentDoc(age: Option<int>, target: Option<string>)

  /** The age at enrollment, 0 when the document has none. */
  function AgeOf(d: StudentDoc): int {
    if d.age.Some? then d.age.value else 0
  }

  /** `doc.get("Target", "Unknown")`. */
  function TargetOf(d: StudentDoc): string {
    if d.target.Some? then d.target.value else "Unknown"
  }

  /** The band of an age: the five bands cover every age, without overlap. */
  function BucketOf(age: int): (b: AgeBucket)
    ensures b == Under18 <==> age < 18
    ensures b == From18To22 <==> 18 <= age <= 22
    ensures b == From23To26 <==> 23 <= age <= 26
    ensures b == From27To30 <==> 27 <= age <= 30
    ensures b == From31 <==> 31 <= age
  {
    if age < 18 then Under18
    else if age <= 22 then From18To22
    else if age <= 26 then From23To26
    else if age <= 30 then From27To30
    else From31
  }

  /** The targets of the documents in band `b`, in document order. */
  function TargetsIn(docs: seq<StudentDoc>, b: AgeBucket): (ts: seq<string>)
    ensures |ts| <= |docs|
    decreases |docs|
  {
    if |docs| == 0 then []
    else
      var last := docs[|docs| - 1];
      TargetsIn(docs[..|docs| - 1], b) + (if BucketOf(AgeOf(last)) == b then [TargetOf(last)] else [])
  }

  lemma TargetsInSnoc(docs: seq<StudentDoc>, i: nat, b: AgeBucket)
    requires i < |docs|
    ensures TargetsIn(docs[..i + 1], b) ==
              TargetsIn(docs[..i], b) + (if BucketOf(AgeOf(docs[i])) == b then [TargetOf(docs[i])] else [])
  {
    assert docs[..i + 1][..i] == docs[..i];
  }

  /** The band sizes add up to the number of documents: each document is
      counted in exactly one band. */
  lemma {:induction false} BucketsPartition(docs: seq<StudentDoc>)
    ensures |TargetsIn(docs, Under18)| + |TargetsIn(docs, From18To22)| + |TargetsIn(docs, From23To26)| +
            |TargetsIn(docs, From27To30)| + |TargetsIn(docs, From31)| == |docs|
    decreases |docs|
  {
    if |docs| > 0 {
      BucketsPartition(docs[..|docs| - 1]);
    }
  }

  /** The loop filling `age_bucket_map`: each document's target is appended
      to the list of its band. */
  method BucketTargets(docs: seq<StudentDoc>) returns (m: map<AgeBucket, seq<string>>)
    ensures forall b :: b in m && m[b] == TargetsIn(docs, b)
  {
    m := map[Under18 := [], From18To22 := [], From23To26 := [], From27To30 := [], From31 := []];
    forall b ensures b in m && m[b] == TargetsIn(docs[..0], b) {
      assert docs[..0] == [];
      assert b.Under18? || b.From18To22? || b.From23To26? || b.From27To30? || b.From31?;
    }
    var i := 0;
    while i < |docs|
      invariant 0 <= i <= |docs|
      invariant forall b :: b in m && m[b] == TargetsIn(docs[..i], b)
    {
      var bucket := BucketOf(AgeOf(docs[i]));
      forall b ensures TargetsIn(docs[..i + 1], b) ==
                         TargetsIn(docs[..i], b) + (if bucket == b then [TargetOf(docs[i])] else []) {
        TargetsInSnoc(docs, i, b);
      }
      m := m[bucket := m[bucket] + [TargetOf(docs[i])]];
      i := i + 1;
    }
    assert docs[..i] == docs;
  }

  /** Each target paired with a count of one. */
  function Ones(ts: seq<string>): (ps: seq<(string, int)>)
    ensures |ps| == |ts| && forall i :: 0 <= i < |ts| ==> ps[i] == (ts[i], 1)
  {
    seq(|ts|, i requires 0 <= i < |ts| => (ts[i], 1))
  }

  /** Summing the ones of a target counts its occurrences. */
  lemma {:induction false} OnesCount(ts: seq<string>, t: string)
    ensures KeySum(Ones(ts), t) == multiset(ts)[t]
    decreases |ts|
  {
    if |ts| > 0 {
      var n := |ts| - 1;
      OnesCount(ts[..n], t);
      assert Ones(ts)[..n] == Ones(ts[..n]);
      assert ts == ts[..n] + [ts[n]];
    }
  }

  lemma OnesSnoc(ts: seq<string>, i: nat)
    requires i < |ts|
    ensures Ones(ts[..i + 1]) == Ones(ts[..i]) + [(ts[i], 1)]
  {
  }

  lemma {:induction false} OnesTotal(ts: seq<string>)
    ensures Sum(Values(Ones(ts))) == |ts|
    decreases |ts|
  {
    if |ts| > 0 {
      var n := |ts| - 1;
      OnesTotal(ts[..n]);
      assert Values(Ones(ts))[..n] == Values(Ones(ts[..n]));
    }
  }

  /** `counts[t] += 1` over a band's targets: one row per distinct target,
      in order of first appearance, holding how often it occurs; the rows
      add up to the band's size. */
  method CountTargets(targets: seq<string>) returns (counts: seq<(string, int)>)
    ensures Keys(counts) == Dedupe(targets)
    ensures forall i :: 0 <= i < |counts| ==> counts[i].1 == multiset(targets)[counts[i].0]
    ensures Sum(Values(counts)) == |targets|
  {
    var m: map<string, int> := map[];
    var order: seq<string> := [];
    var i := 0;
    while i < |targets|
      invariant 0 <= i <= |targets|
      invariant Tallies(m, order, Ones(targets[..i]))
    {
      OnesSnoc(targets, i);
      m, order := AddPair(m, order, Ones(targets[..i]), (targets[i], 1));
      i := i + 1;
    }
    assert targets[..i] == targets;
    counts := CountRows(m, order, targets);
  }

  /** The rows of a finished count. */
  function CountRows(m: map<string, int>, order: seq<string>, targets: seq<string>): (counts: seq<(string, int)>)
    requires Tallies(m, order, Ones(targets))
    ensures Keys(counts) == Dedupe(targets)
    ensures forall i :: 0 <= i < |counts| ==> counts[i].1 == multiset(targets)[counts[i].0]
    ensures Sum(Values(counts)) == |targets|
  {
    assert Keys(Ones(targets)) == targets;
    var counts := Rows(m, order);
    assert Keys(counts) == order;
    assert forall k | 0 <= k < |counts| :: counts[k].1 == multiset(targets)[counts[k].0] by {
      forall k | 0 <= k < |counts| ensures counts[k].1 == multiset(targets)[counts[k].0] {
        OnesCount(targets, counts[k].0);
      }
    }
    RowsTotal(m, order, Ones(targets));
    OnesTotal(targets);
    counts
  }

  /** The row of one band: its name, one count per distinct outcome in order
      of first appearance, each the number of the band's documents with that
      outcome, and counts adding up to the band's size. */
  predicate BandRow(docs: seq<StudentDoc>, b: AgeBucket, row: (string, seq<(string, int)>)) {
    row.0 == BucketName(b) &&
    Keys(row.1) == Dedupe(TargetsIn(docs, b)) &&
    (forall j :: 0 <= j < |row.1| ==> row.1[j].1 == multiset(TargetsIn(docs, b))[row.1[j].0]) &&
    Sum(Values(row.1)) == |TargetsIn(docs, b)|
  }

  /** The counts of one band, from the targets collected for it. */
  method CountBand(docs: seq<StudentDoc>, b: AgeBucket, targets: seq<string>) returns (row: (string, seq<(string, int)>))
    requires targets == TargetsIn(docs, b)
    ensures BandRow(docs, b, row)
  {
    var counts := CountTargets(targets);
    row := (BucketName(b), counts);
  }

  /** `age_vs_dropout`: the five bands in order, each with its outcome
      counts, which add up to the number of documents in the band. */
  method AgeVsDropout(docs: seq<StudentDoc>) returns (rows: seq<(string, seq<(string, int)>)>)
    ensures |rows| == |Buckets|
    ensures forall i :: 0 <= i < |rows| ==> BandRow(docs, Buckets[i], rows[i])
  {
    var m := BucketTargets(docs);
    rows := [];
    var i := 0;
    while i < |Buckets|
      invariant 0 <= i <= |Buckets|
      invariant |rows| == i
      invariant forall k :: 0 <= k < i ==> BandRow(docs, Buckets[k], rows[k])
    {
      var row := CountBand(docs, Buckets[i], m[Buckets[i]]);
      rows := rows + [row];
      i := i + 1;
    }
  }

  /** Over all five bands the counts cover every document exactly once. */
  lemma AgeCountsCoverAllDocs(docs: seq<StudentDoc>, rows: seq<(string, seq<(string, int)>)>)
    requires |rows| == |Buckets|
    requires forall i :: 0 <= i < |rows| ==> Sum(Values(rows[i].1)) == |TargetsIn(docs, Buckets[i])|
    ensures Sum(Values(rows[0].1)) + Sum(Values(rows[1].1)) + Sum(Values(rows[2].1)) +
            Sum(Values(rows[3].1)) + Sum(Values(rows[4].1)) == |docs|
  {
    BucketsPartition(docs);
  }
}
