/** The service-call graph of internal/service/east_west_graph.go: connect events are
    tallied under the composite key "ns|src|ip|port", ranked, truncated and resolved. */
module EastWest {
  import opened Text
  import opened Lists
  import Endpoints

  datatype TraceEvent = TraceEvent(
    namespace: string, podName: string, comm: string, kind: string, dstAddr: seq<int>, dstPort: int)
  /** A bus message: None when its JSON does not decode. */
  type Message = Option<TraceEvent>

  datatype Quad = Quad(namespace: string, source: string, ip: string, port: int)
  datatype Row = Row(quad: Quad, count: nat)

  const ROW_COUNT: Row -> nat := (r: Row) => r.count

  // ---- the keys ----------------------------------------------------------------------

  lemma NoBarInDecimal(n: int)
    ensures '|' !in Decimal(n)
  {
    assert '|' !in DIGITS;
  }

  lemma NoBarJoined(s: string, t: string)
    requires '|' !in s && '|' !in t
    ensures '|' !in s + "." + t
  {
  }

  function Dotted(a: int, b: int, c: int, d: int): (s: string)
    ensures '|' !in s
  {
    NoBarInDecimal(a); NoBarInDecimal(b); NoBarInDecimal(c); NoBarInDecimal(d);
    NoBarJoined(Decimal(a), Decimal(b));
    NoBarJoined(Decimal(a) + "." + Decimal(b), Decimal(c));
    NoBarJoined(Decimal(a) + "." + Decimal(b) + "." + Decimal(c), Decimal(d));
    Decimal(a) + "." + Decimal(b) + "." + Decimal(c) + "." + Decimal(d)
  }

  /** dottedV4: the last four components, so an IPv4-mapped address prints as IPv4. */
  function DottedV4(a: seq<int>): (s: string)
    ensures '|' !in s
  {
    if |a| < 4 then ""
    else Dotted(a[|a| - 4], a[|a| - 3], a[|a| - 2], a[|a| - 1])
  }

  lemma DottedInjective(a: int, b: int, c: int, d: int, a': int, b': int, c': int, d': int)
    requires Dotted(a, b, c, d) == Dotted(a', b', c', d')
    ensures a == a' && b == b' && c == c' && d == d'
  {
    var abc := Decimal(a) + "." + Decimal(b) + "." + Decimal(c);
    var abc' := Decimal(a') + "." + Decimal(b') + "." + Decimal(c');
    LastSeparatorSplits(abc, Decimal(d), abc', Decimal(d'), '.');
    LastSeparatorSplits(Decimal(a) + "." + Decimal(b), Decimal(c), Decimal(a') + "." + Decimal(b'), Decimal(c'), '.');
    LastSeparatorSplits(Decimal(a), Decimal(b), Decimal(a'), Decimal(b'), '.');
    DecimalInjective(a, a');
    DecimalInjective(b, b');
    DecimalInjective(c, c');
    DecimalInjective(d, d');
  }

  /** The test against "0.0.0.0" singles out the all-zero address and no other. */
  lemma ZeroAddressTest(a: seq<int>)
    requires |a| >= 4
    ensures DottedV4(a) == "0.0.0.0" <==> a[|a| - 4..] == [0, 0, 0, 0]
  {
    var n := |a|;
    assert Decimal(0) == "0";
    assert Dotted(0, 0, 0, 0) == "0.0.0.0";
    if DottedV4(a) == "0.0.0.0" {
      DottedInjective(a[n - 4], a[n - 3], a[n - 2], a[n - 1], 0, 0, 0, 0);
    }
  }

  function Key(q: Quad): string {
    q.namespace + "|" + q.source + "|" + q.ip + "|" + Decimal(q.port)
  }

  /** What the key keeps apart, exactly: two edges share a key when their address and port
      agree and their namespace and source run together to the same text. */
  lemma KeysAgreeIff(q: Quad, q': Quad)
    requires '|' !in q.ip && '|' !in q'.ip
    ensures Key(q) == Key(q') <==>
            q.ip == q'.ip && q.port == q'.port
            && q.namespace + "|" + q.source == q'.namespace + "|" + q'.source
  {
    if Key(q) == Key(q') {
      var front, front' := q.namespace + "|" + q.source, q'.namespace + "|" + q'.source;
      LastSeparatorSplits(front + "|" + q.ip, Decimal(q.port), front' + "|" + q'.ip, Decimal(q'.port), '|');
      LastSeparatorSplits(front, q.ip, front', q'.ip, '|');
      DecimalInjective(q.port, q'.port);
    }
  }

  /** With namespaces that are labels (no '|', section 2.1 of RFC 1123) the key is injective
      even when the source name contains '|'. */
  lemma KeyInjective(q: Quad, q': Quad)
    requires '|' !in q.ip && '|' !in q'.ip
    requires '|' !in q.namespace && '|' !in q'.namespace
    requires Key(q) == Key(q')
    ensures q == q'
  {
    KeysAgreeIff(q, q');
    FirstSeparatorSplits(q.namespace, q.source, q'.namespace, q'.source, '|');
  }

  /** Without that, two different edges do share a key. */
  lemma KeyClash(ip: string, port: int)
    ensures Key(Quad("a", "b|c", ip, port)) == Key(Quad("a|b", "c", ip, port))
  {
    assert "a" + "|" + "b|c" == "a|b" + "|" + "c";
  }

  // ---- what a message contributes -------------------------------------------------------

  predicate Counted(m: Message) {
    m.Some? && m.value.kind != ""
  }

  /** The edge a message is tallied under, if it is. */
  function EdgeOf(m: Message): (q: Option<Quad>)
    ensures q.Some? ==> Counted(m) && '|' !in q.value.ip
  {
    if !Counted(m) then None
    else
      var e := m.value;
      var ip := DottedV4(e.dstAddr);
      if ip == "" || ip == "0.0.0.0" then None
      else Some(Quad(e.namespace, if e.podName == "" then e.comm else e.podName, ip, e.dstPort))
  }

  /** Which edge a message is tallied under: that of its namespace, its pod, or its command when it
      names no pod, the last four components of its address, and its port; none when it does not
      decode, has no kind, or its address is shorter than that or all zeros. */
  lemma EdgeIff(m: Message, q: Quad)
    ensures EdgeOf(m) == Some(q) <==>
            && m.Some? && m.value.kind != "" && |m.value.dstAddr| >= 4
            && var a := m.value.dstAddr[|m.value.dstAddr| - 4..];
               && a != [0, 0, 0, 0]
               && q.namespace == m.value.namespace
               && q.source == (if m.value.podName != "" then m.value.podName else m.value.comm)
               && q.ip == Decimal(a[0]) + "." + Decimal(a[1]) + "." + Decimal(a[2]) + "." + Decimal(a[3])
               && q.port == m.value.dstPort
  {
    if m.Some? && |m.value.dstAddr| >= 4 {
      ZeroAddressTest(m.value.dstAddr);
    }
  }

  /** Which messages are seen, and which of those are skipped. */
  lemma SeenIff(m: Message)
    ensures Counted(m) <==> m.Some? && m.value.kind != ""
    ensures SkippedMsg(m) <==>
            && m.Some? && m.value.kind != ""
            && var n := |m.value.dstAddr|; n < 4 || m.value.dstAddr[n - 4..] == [0, 0, 0, 0]
  {
    if m.Some? && |m.value.dstAddr| >= 4 {
      ZeroAddressTest(m.value.dstAddr);
    }
  }

  function Seen(msgs: seq<Message>): nat {
    |Filter(msgs, Counted)|
  }

  predicate SkippedMsg(m: Message) {
    Counted(m) && (DottedV4(m.value.dstAddr) == "" || DottedV4(m.value.dstAddr) == "0.0.0.0")
  }

  function Skipped(msgs: seq<Message>): nat {
    |Filter(msgs, SkippedMsg)|
  }

  function CountEdge(msgs: seq<Message>, q: Quad): nat {
    |Filter(msgs, m => EdgeOf(m) == Some(q))|
  }

  function CountKey(msgs: seq<Message>, key: string): nat {
    |Filter(msgs, (m: Message) => EdgeOf(m).Some? && Key(EdgeOf(m).value) == key)|
  }

  /** Count one more event under an edge's key: the entry is created on first use and
      bumped in place afterwards. */
  function Bumped(t: map<string, Row>, q: Quad): map<string, Row> {
    var k := Key(q);
    t[k := if k in t then t[k].(count := t[k].count + 1) else Row(q, 1)]
  }

  /** The edges map after the loop, as values. */
  function Tally(msgs: seq<Message>): map<string, Row> {
    if msgs == [] then map[]
    else
      var t, q := Tally(msgs[..|msgs| - 1]), EdgeOf(msgs[|msgs| - 1]);
      if q.None? then t else Bumped(t, q.value)
  }

  // ---- the sampling loop, with its edges updated in place -----------------------------------

  class Edge {
    const quad: Quad
    var count: nat

    constructor (quad: Quad)
      ensures this.quad == quad && count == 0
    {
      this.quad := quad;
      this.count := 0;
    }
  }

  /** The edges, all of the pool, hold the rows of t. Keys are printed from the edges' own
      fields, so no two entries share an Edge. */
  ghost predicate Holds(edges: map<string, Edge>, t: map<string, Row>, pool: set<Edge>)
    reads pool
  {
    && edges.Keys == t.Keys
    && forall k :: k in edges ==>
         edges[k] in pool && Key(edges[k].quad) == k && Row(edges[k].quad, edges[k].count) == t[k]
  }

  /** The entry for an edge, made with count zero on first use. */
  method EntryFor(edges: map<string, Edge>, quad: Quad, ghost t: map<string, Row>, ghost pool: set<Edge>)
    returns (edges': map<string, Edge>, ghost pool': set<Edge>)
    requires Holds(edges, t, pool)
    ensures Holds(edges', if Key(quad) in t then t else t[Key(quad) := Row(quad, 0)], pool')
    ensures pool <= pool' && fresh(pool' - pool)
  {
    edges', pool' := edges, pool;
    var key := Key(quad);
    if key !in edges {
      var e := new Edge(quad);
      edges', pool' := edges[key := e], pool + {e};
    }
  }

  /** One more on an entry; no other entry has the same Edge. */
  method CountOn(edges: map<string, Edge>, key: string, ghost t: map<string, Row>, ghost pool: set<Edge>)
    requires Holds(edges, t, pool) && key in edges
    modifies edges[key]
    ensures Holds(edges, t[key := t[key].(count := t[key].count + 1)], pool)
  {
    var e := edges[key];
    assert forall k :: k in edges && k != key ==> edges[k] != e;
    e.count := e.count + 1;
  }

  /** Only the edge's own entry changes: created, or one more. */
  method Bump(edges: map<string, Edge>, quad: Quad, ghost t: map<string, Row>, ghost pool: set<Edge>)
    returns (edges': map<string, Edge>, ghost pool': set<Edge>)
    requires Holds(edges, t, pool)
    modifies pool
    ensures Holds(edges', Bumped(t, quad), pool') && pool <= pool' && fresh(pool' - pool)
  {
    edges', pool' := EntryFor(edges, quad, t, pool);
    BumpedIsCounted(t, quad);
    CountOn(edges', Key(quad), if Key(quad) in t then t else t[Key(quad) := Row(quad, 0)], pool');
  }

  lemma BumpedIsCounted(t: map<string, Row>, quad: Quad)
    ensures var k := Key(quad);
            var t' := if k in t then t else t[k := Row(quad, 0)];
            t'[k := t'[k].(count := t'[k].count + 1)] == Bumped(t, quad)
  {
  }

  method Aggregate(msgs: seq<Message>) returns (edges: map<string, Edge>, seen: nat, ghost pool: set<Edge>)
    ensures Holds(edges, Tally(msgs), pool) && fresh(pool)
    ensures seen == Seen(msgs)
  {
    edges, seen, pool := map[], 0, {};
    for i := 0 to |msgs|
      invariant Holds(edges, Tally(msgs[..i]), pool) && fresh(pool)
      invariant seen == Seen(msgs[..i])
    {
      assert msgs[..i + 1][..i] == msgs[..i];
      if !Counted(msgs[i]) { continue; }
      var ev := msgs[i].value;
      seen := seen + 1;
      var dip := DottedV4(ev.dstAddr);
      if dip == "" || dip == "0.0.0.0" { continue; }
      var src := ev.podName;
      if src == "" {
        src := ev.comm;
      }
      edges, pool := Bump(edges, Quad(ev.namespace, src, dip, ev.dstPort), Tally(msgs[..i]), pool);
    }
    assert msgs[..|msgs|] == msgs;
  }

  // ---- what the tally means -------------------------------------------------------------------

  /** Each entry counts the messages that print to its key, and belongs to one of them. */
  lemma {:induction false} TallyCounts(msgs: seq<Message>, key: string)
    ensures key in Tally(msgs) <==> CountKey(msgs, key) > 0
    ensures key in Tally(msgs) ==>
              Tally(msgs)[key].count == CountKey(msgs, key) && Key(Tally(msgs)[key].quad) == key
    ensures key in Tally(msgs) ==> exists m :: m in msgs && EdgeOf(m) == Some(Tally(msgs)[key].quad)
  {
    if msgs != [] {
      var init, m := msgs[..|msgs| - 1], msgs[|msgs| - 1];
      TallyCounts(init, key);
      assert m in msgs && forall x :: x in init ==> x in msgs;
    }
  }

  lemma {:induction false} CountEdgePositive(msgs: seq<Message>, m: Message)
    requires m in msgs && EdgeOf(m).Some?
    ensures CountEdge(msgs, EdgeOf(m).value) > 0
  {
    if m != msgs[|msgs| - 1] {
      assert m in msgs[..|msgs| - 1];
      CountEdgePositive(msgs[..|msgs| - 1], m);
    }
  }

  lemma {:induction false} CountEdgeWitness(msgs: seq<Message>, q: Quad)
    requires CountEdge(msgs, q) > 0
    ensures exists m :: m in msgs && EdgeOf(m) == Some(q)
  {
    var m := msgs[|msgs| - 1];
    if EdgeOf(m) == Some(q) {
      assert m in msgs;
    } else {
      CountEdgeWitness(msgs[..|msgs| - 1], q);
      var m' :| m' in msgs[..|msgs| - 1] && EdgeOf(m') == Some(q);
      assert m' in msgs;
    }
  }

  /** Two of the sampled edges print to the same key. */
  ghost predicate Clash(msgs: seq<Message>) {
    exists m, m' :: m in msgs && m' in msgs && EdgeOf(m).Some? && EdgeOf(m').Some?
                    && Collide(EdgeOf(m).value, EdgeOf(m').value)
  }

  predicate Collide(q: Quad, q': Quad) {
    && q.ip == q'.ip && q.port == q'.port && q.namespace != q'.namespace
    && q.namespace + "|" + q.source == q'.namespace + "|" + q'.source
  }

  /** Every sampled edge has a row of its own, counting its own messages. */
  ghost predicate Exact(msgs: seq<Message>) {
    forall q :: CountEdge(msgs, q) > 0 ==>
      Key(q) in Tally(msgs) && Tally(msgs)[Key(q)] == Row(q, CountEdge(msgs, q))
  }

  lemma {:induction false} SameMessages(msgs: seq<Message>, q: Quad)
    requires '|' !in q.ip
    requires forall m :: m in msgs && EdgeOf(m).Some? && Key(EdgeOf(m).value) == Key(q) ==> EdgeOf(m).value == q
    ensures CountKey(msgs, Key(q)) == CountEdge(msgs, q)
  {
    if msgs != [] {
      SameMessages(msgs[..|msgs| - 1], q);
      assert msgs[|msgs| - 1] in msgs;
    }
  }

  lemma CollideIffSameKey(q: Quad, q': Quad)
    requires '|' !in q.ip && '|' !in q'.ip
    ensures Collide(q, q') <==> q != q' && Key(q) == Key(q')
  {
    KeysAgreeIff(q, q');
    if q.namespace == q'.namespace && q.namespace + "|" + q.source == q'.namespace + "|" + q'.source {
      EqualCuts(q.namespace, q.source, q'.namespace, q'.source, '|');
    }
  }

  lemma CountsExactWithoutClash(msgs: seq<Message>, q: Quad)
    requires !Clash(msgs) && CountEdge(msgs, q) > 0
    ensures Key(q) in Tally(msgs) && Tally(msgs)[Key(q)] == Row(q, CountEdge(msgs, q))
  {
    CountEdgeWitness(msgs, q);
    var w :| w in msgs && EdgeOf(w) == Some(q);
    forall m | m in msgs && EdgeOf(m).Some? && Key(EdgeOf(m).value) == Key(q) ensures EdgeOf(m).value == q {
      CollideIffSameKey(EdgeOf(m).value, q);
    }
    SameMessages(msgs, q);
    TallyCounts(msgs, Key(q));
  }

  /** The graph counts every 4-tuple exactly if and only if no two sampled edges collide. */
  lemma ExactIffNoClash(msgs: seq<Message>)
    ensures Exact(msgs) <==> !Clash(msgs)
  {
    if Clash(msgs) {
      var m, m' :| m in msgs && m' in msgs && EdgeOf(m).Some? && EdgeOf(m').Some?
                   && Collide(EdgeOf(m).value, EdgeOf(m').value);
      var q, q' := EdgeOf(m).value, EdgeOf(m').value;
      CollideIffSameKey(q, q');
      CountEdgePositive(msgs, m);
      CountEdgePositive(msgs, m');
      assert Row(q, CountEdge(msgs, q)) != Row(q', CountEdge(msgs, q'));
    } else {
      forall q | CountEdge(msgs, q) > 0
        ensures Key(q) in Tally(msgs) && Tally(msgs)[Key(q)] == Row(q, CountEdge(msgs, q))
      {
        CountsExactWithoutClash(msgs, q);
      }
    }
  }

  /** Namespaces without '|' are enough, whatever the source names contain. */
  lemma LabelNamespacesAreExact(msgs: seq<Message>)
    requires forall m: Message :: m in msgs && m.Some? ==> '|' !in m.value.namespace
    ensures Exact(msgs)
  {
    forall m, m' | m in msgs && m' in msgs && EdgeOf(m).Some? && EdgeOf(m').Some?
      ensures !Collide(EdgeOf(m).value, EdgeOf(m').value)
    {
      var q, q' := EdgeOf(m).value, EdgeOf(m').value;
      CollideIffSameKey(q, q');
      if Key(q) == Key(q') {
        KeyInjective(q, q');
      }
    }
    ExactIffNoClash(msgs);
  }

  /** Without a clash every row of the graph, shown or not, is a sampled edge with the
      number of its messages. */
  lemma RowsCountTheirEdge(msgs: seq<Message>, key: string)
    requires !Clash(msgs) && key in Tally(msgs)
    ensures Tally(msgs)[key].count == CountEdge(msgs, Tally(msgs)[key].quad) > 0
  {
    TallyCounts(msgs, key);
    var m :| m in msgs && EdgeOf(m) == Some(Tally(msgs)[key].quad);
    CountEdgePositive(msgs, m);
    CountsExactWithoutClash(msgs, Tally(msgs)[key].quad);
  }

  /** Nothing is lost or invented: the counts of all edges and the events skipped for an
      empty or zero address add up to the events seen. */
  lemma {:induction false} TallyConserves(msgs: seq<Message>)
    ensures SumMap(Keyed(Tally(msgs), ROW_COUNT)) + Skipped(msgs) == Seen(msgs)
  {
    if msgs == [] {
      assert Keyed(Tally(msgs), ROW_COUNT) == map[];
    } else {
      TallyConserves(msgs[..|msgs| - 1]);
      var q := EdgeOf(msgs[|msgs| - 1]);
      if q.Some? {
        BumpedSum(Tally(msgs[..|msgs| - 1]), q.value);
      }
    }
  }

  lemma BumpedSum(t: map<string, Row>, q: Quad)
    ensures SumMap(Keyed(Bumped(t, q), ROW_COUNT)) == SumMap(Keyed(t, ROW_COUNT)) + 1
  {
    var c, k := Keyed(t, ROW_COUNT), Key(q);
    var n := if k in c then c[k] + 1 else 1;
    assert Keyed(Bumped(t, q), ROW_COUNT) == c[k := n];
    SumMapUpdate(c, k, n);
  }

  // ---- ranking, truncation, resolution ----------------------------------------------------------

  datatype EdgeOut = EdgeOut(
    row: Row, kind: Endpoints.Kind, name: string, namespace: string, workload: string, serviceAccount: string)

  function MaxEdges(requested: int): (k: nat)
    ensures k > 0
  {
    if requested <= 0 then 50 else requested
  }

  /** A destination as the response shows it; "external" without a cluster to ask. */
  function Show(r: Row, cluster: Option<Endpoints.Cluster>): EdgeOut {
    if cluster.None? then EdgeOut(r, Endpoints.External, "", "", "", "")
    else
      var e := Endpoints.ScanResolve(cluster.value, r.quad.ip, r.quad.port);
      EdgeOut(r, e.kind, e.name, e.namespace, e.workload, e.serviceAccount)
  }

  /** o shows this row and whom the lists name at its destination. */
  ghost predicate Shows(o: EdgeOut, r: Row, cluster: Option<Endpoints.Cluster>) {
    && o.row == r
    && if cluster.None? then
         o.kind == Endpoints.External && o.name == o.namespace == o.workload == o.serviceAccount == ""
       else
         exists e :: Endpoints.Answers(cluster.value, r.quad.ip, r.quad.port, e)
                     && (o.kind, o.name, o.namespace) == (e.kind, e.name, e.namespace)
                     && (o.workload, o.serviceAccount) == (e.workload, e.serviceAccount)
  }

  lemma ShowShows(r: Row, cluster: Option<Endpoints.Cluster>)
    ensures Shows(Show(r, cluster), r, cluster)
  {
    if cluster.Some? {
      Endpoints.ScanAnswers(cluster.value, r.quad.ip, r.quad.port);
    }
  }

  method CollectRows(edges: map<string, Edge>, ghost t: map<string, Row>, ghost pool: set<Edge>)
    returns (all: seq<Row>)
    requires Holds(edges, t, pool)
    ensures Pending(all, t, {}, ROW_COUNT)
  {
    all := [];
    var todo := edges.Keys;
    CollectEnds(all, t, ROW_COUNT);
    while todo != {}
      invariant Pending(all, t, todo, ROW_COUNT)
      decreases todo
    {
      var k :| k in todo;
      CollectNext(all, t, todo, k, ROW_COUNT);
      all := all + [Row(edges[k].quad, edges[k].count)];
      todo := todo - {k};
    }
  }

  /** The rows that survive truncation, each resolved. */
  method ShowRows(rows: seq<Row>, cluster: Option<Endpoints.Cluster>) returns (out: seq<EdgeOut>)
    ensures |out| == |rows|
    ensures forall i :: 0 <= i < |out| ==> out[i] == Show(rows[i], cluster)
    ensures forall i :: 0 <= i < |out| ==> Shows(out[i], rows[i], cluster)
  {
    var idx := Endpoints.Index(map[], map[], map[], map[]);
    if cluster.Some? {
      idx := Endpoints.BuildEndpointIndex(cluster.value);
    }
    out := [];
    for i := 0 to |rows|
      invariant |out| == i
      invariant forall j :: 0 <= j < i ==> out[j] == Show(rows[j], cluster)
    {
      var r := rows[i];
      var o := EdgeOut(r, Endpoints.External, "", "", "", "");
      if cluster.Some? {
        Endpoints.ResolveRefinesScan(idx, cluster.value, r.quad.ip, r.quad.port);
        var e := Endpoints.Resolve(idx, r.quad.ip, r.quad.port);
        o := EdgeOut(r, e.kind, e.name, e.namespace, e.workload, e.serviceAccount);
      }
      out := out + [o];
    }
    forall i | 0 <= i < |out| ensures Shows(out[i], rows[i], cluster) {
      ShowShows(rows[i], cluster);
    }
  }

  /** EastWestGraph after the bus is up: tally, rank, truncate, resolve. The response is a
      top-k selection of the tally, each row resolved as a scan of the cluster would. */
  method EastWestGraph(msgs: seq<Message>, maxEdges: int, cluster: Option<Endpoints.Cluster>)
    returns (out: seq<EdgeOut>, seen: nat, all: seq<Row>)
    ensures seen == Seen(msgs)
    ensures multiset(all) == multiset(Tally(msgs).Values) && Descending(all, ROW_COUNT)
    ensures |out| == |Take(MaxEdges(maxEdges), all)|
    ensures |out| == var k := if maxEdges <= 0 then 50 else maxEdges; if |all| < k then |all| else k
    ensures forall i :: 0 <= i < |out| ==> Shows(out[i], all[i], cluster)
    ensures forall i :: 0 <= i < |out| ==> out[i] == Show(Take(MaxEdges(maxEdges), all)[i], cluster)
    ensures TopOf(Take(MaxEdges(maxEdges), all), multiset(Tally(msgs).Values), MaxEdges(maxEdges), ROW_COUNT)
    ensures Seen(msgs) >= Skipped(msgs)
    ensures FairShare(SumKeys(Take(MaxEdges(maxEdges), all), ROW_COUNT), |out|,
                      Seen(msgs) - Skipped(msgs), |Tally(msgs)|)
  {
    all, seen := Rank(msgs, MaxEdges(maxEdges));
    TallyConserves(msgs);
    var rows := all;
    var limit := maxEdges;
    if limit <= 0 {
      limit := 50;
    }
    if |rows| > limit {
      rows := rows[..limit];
    }
    out := ShowRows(rows, cluster);
  }

  /** The tally, ranked; k is where it will be cut. */
  method Rank(msgs: seq<Message>, ghost k: nat) returns (all: seq<Row>, seen: nat)
    ensures seen == Seen(msgs)
    ensures multiset(all) == multiset(Tally(msgs).Values) && Descending(all, ROW_COUNT)
    ensures TopOf(Take(k, all), multiset(Tally(msgs).Values), k, ROW_COUNT)
    ensures FairShare(SumKeys(Take(k, all), ROW_COUNT), |Take(k, all)|,
                      SumMap(Keyed(Tally(msgs), ROW_COUNT)), |Tally(msgs)|)
  {
    var edges;
    ghost var pool;
    edges, seen, pool := Aggregate(msgs);
    var rows := CollectRows(edges, Tally(msgs), pool);
    all := SortSlice(rows, ROW_COUNT);
    RankedTop(rows, all, Tally(msgs), k, ROW_COUNT);
  }
}
