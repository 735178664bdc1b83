/**
 The region layout (src/core/layout/geometry.cpp, src/core/layout/geometry.hpp,
 src/core/policy/successor_peterson_layout.hpp): sections one after the other, each a run of 64-byte lines. Every
 line a peer ever reads or writes has an address of its own inside the area.
 */
module Layout {
  import TreeGeometry
  import opened Basics

  const LINE: nat := 64

  /** `asked` is the number of aggregator groups in the header, zero for as few as will do. */
  datatype Strategy = Order | Request | RequestAgg(asked: nat) | Peterson

  function PerLine(bytes: Positive): Positive
    requires bytes <= LINE
  {
    FitsOnce(bytes);
    LINE / bytes
  }

  lemma FitsOnce(bytes: Positive)
    requires bytes <= LINE
    ensures LINE / bytes >= 1
  {
    DivAtLeast(LINE, bytes, 1);
  }

  datatype Dims = Dims(domains: nat, peers: Positive, strategy: Strategy, profile: bool, groupSize: Positive)
  {
    function Groups(): nat {
      (peers + groupSize - 1) / groupSize
    }

    /** One truth copy and one shadow for each group. */
    function RecordsPerDomain(): Positive {
      Groups() + 1
    }

    function NodesPerDomain(): nat {
      TreeGeometry.NumLeaves(peers) - 1
    }

    /** How many peers' wanted-domain bitmaps fit into one line, at least one. */
    function MembersPerSlot(): Positive {
      var bitmapBytes := (domains + 7) / 8;
      if bitmapBytes == 0 || LINE < bitmapBytes then 1 else PerLine(bitmapBytes)
    }

    /** One packed line for each group: as many groups as asked for, and never too few. */
    function AggregatorGroups(): nat {
      match strategy
      case RequestAgg(asked) =>
        var least := (peers + MembersPerSlot() - 1) / MembersPerSlot();
        if asked < least then least else asked
      case _ => 0
    }

    /** Each node is the two contenders' lines and the fairness line. */
    function TailLines(): nat {
      match strategy
      case Order => 0
      case Request => peers
      case RequestAgg(_) => peers + 2 * AggregatorGroups()
      case Peterson => domains * NodesPerDomain() * 3
    }

    function ProfileLines(): nat {
      if profile then peers else 0
    }
  }

  /** The size formula, in the order the source adds it up. */
  function ComputeAreaSize(m: Dims): nat {
    LINE + LINE + LINE + m.domains * m.RecordsPerDomain() * LINE + m.peers * LINE + m.peers * LINE +
    m.ProfileLines() * LINE + m.TailLines() * LINE
  }

  /** Every line of the region that some peer addresses. */
  datatype Line =
    | Header
    | Admission
    | Bound
    | Truth(domain: nat)
    | Shadow(domain: nat, group: nat)
    | Member(peer: nat)
    | Claim(peer: nat)
    | Demand(peer: nat)
    | Aggregator(group: nat)
    | Packed(group: nat)
    | Node(domain: nat, node: nat, part: nat)
    | Profile(peer: nat)

  predicate Addressed(m: Dims, l: Line) {
    match l
    case Header => true
    case Admission => true
    case Bound => true
    case Truth(d) => d < m.domains
    case Shadow(d, g) => d < m.domains && g < m.Groups()
    case Member(p) => p < m.peers
    case Claim(p) => p < m.peers
    case Demand(p) => (m.strategy.Request? || m.strategy.RequestAgg?) && p < m.peers
    case Aggregator(g) => g < m.AggregatorGroups()
    case Packed(g) => g < m.AggregatorGroups()
    case Node(d, n, part) => m.strategy == Peterson && d < m.domains && n < m.NodesPerDomain() && part < 3
    case Profile(p) => m.profile && p < m.peers
  }

  /** The section bases the build leaves behind, as byte offsets; a section that is absent has none. */
  class Geometry {
    var admission: nat
    var bound: nat
    var records: nat
    var members: nat
    var claims: nat
    var tail: nat
    var profile: nat
    var areaSize: nat

    /** Advances the cursor over the sections; where it stops is the computed size. */
    constructor (m: Dims)
      ensures areaSize == ComputeAreaSize(m)
      ensures forall l | Addressed(m, l) :: At(m, l) == LINE * Index(m, l)
    {
      var cursor := LINE;
      admission := cursor;
      cursor := cursor + LINE;
      bound := cursor;
      cursor := cursor + LINE;
      records := cursor;
      cursor := cursor + m.domains * m.RecordsPerDomain() * LINE;
      members := cursor;
      cursor := cursor + m.peers * LINE;
      claims := cursor;
      cursor := cursor + m.peers * LINE;
      tail := cursor;
      cursor := cursor + m.TailLines() * LINE;
      profile := cursor;
      cursor := cursor + m.ProfileLines() * LINE;
      areaSize := cursor;
      new;
      assert records == LINE * 3;
      assert members == LINE * MembersAt(m);
      assert claims == LINE * (MembersAt(m) + m.peers);
      assert tail == LINE * TailAt(m);
      assert profile == LINE * (TailAt(m) + m.TailLines());
    }

    /** Where an accessor finds the line. */
    function At(m: Dims, l: Line): int
      requires Addressed(m, l)
      reads this
    {
      match l
      case Header => 0
      case Admission => admission
      case Bound => bound
      case Truth(d) => records + (d * m.RecordsPerDomain()) * LINE
      case Shadow(d, g) => records + (d * m.RecordsPerDomain() + 1 + g) * LINE
      case Member(p) => members + p * LINE
      case Claim(p) => claims + p * LINE
      case Demand(p) => tail + p * LINE
      case Aggregator(g) => tail + m.peers * LINE + g * LINE
      case Packed(g) => tail + m.peers * LINE + m.AggregatorGroups() * LINE + g * LINE
      case Node(d, n, part) => tail + (d * m.NodesPerDomain() + n) * (3 * LINE) + part * LINE
      case Profile(p) => profile + p * LINE
    }
  }

  function MembersAt(m: Dims): nat {
    3 + m.domains * m.RecordsPerDomain()
  }

  function TailAt(m: Dims): nat {
    MembersAt(m) + m.peers + m.peers
  }

  /** The line number of an addressed line. */
  function Index(m: Dims, l: Line): nat
    requires Addressed(m, l)
  {
    match l
    case Header => 0
    case Admission => 1
    case Bound => 2
    case Truth(d) => 3 + d * m.RecordsPerDomain()
    case Shadow(d, g) => 3 + d * m.RecordsPerDomain() + 1 + g
    case Member(p) => MembersAt(m) + p
    case Claim(p) => MembersAt(m) + m.peers + p
    case Demand(p) => TailAt(m) + p
    case Aggregator(g) => TailAt(m) + m.peers + g
    case Packed(g) => TailAt(m) + m.peers + m.AggregatorGroups() + g
    case Node(d, n, part) => TailAt(m) + (d * m.NodesPerDomain() + n) * 3 + part
    case Profile(p) => TailAt(m) + m.TailLines() + p
  }

  /** A cell of a table with rows of `width` lies inside it, before every cell of a later row. */
  lemma CellInTable(row: nat, col: nat, width: nat, rows: nat)
    requires row < rows && col < width
    ensures row * width + col < rows * width
  {
    assert (row + 1) * width <= rows * width;
  }

  lemma CellsDiffer(row: nat, col: nat, row': nat, col': nat, width: nat)
    requires col < width && col' < width && row * width + col == row' * width + col'
    ensures row == row' && col == col'
  {
    if row < row' {
      CellInTable(row, col, width, row');
    } else if row' < row {
      CellInTable(row', col', width, row);
    }
  }

  /** The section a line lies in, by rank. */
  function Section(l: Line): nat {
    match l
    case Header => 0
    case Admission => 1
    case Bound => 2
    case Truth(_) => 3
    case Shadow(_, _) => 3
    case Member(_) => 4
    case Claim(_) => 5
    case Demand(_) => 6
    case Aggregator(_) => 6
    case Packed(_) => 6
    case Node(_, _, _) => 6
    case Profile(_) => 7
  }

  function SectionStart(m: Dims, k: nat): nat {
    if k <= 3 then k
    else if k == 4 then MembersAt(m)
    else if k == 5 then MembersAt(m) + m.peers
    else if k == 6 then TailAt(m)
    else if k == 7 then TailAt(m) + m.TailLines()
    else TailAt(m) + m.TailLines() + m.ProfileLines()
  }

  lemma InSection(m: Dims, l: Line)
    requires Addressed(m, l)
    ensures SectionStart(m, Section(l)) <= Index(m, l) < SectionStart(m, Section(l) + 1)
  {
    match l
    case Truth(d) => CellInTable(d, 0, m.RecordsPerDomain(), m.domains);
    case Shadow(d, g) => CellInTable(d, 1 + g, m.RecordsPerDomain(), m.domains);
    case Node(d, n, part) =>
      CellInTable(d, n, m.NodesPerDomain(), m.domains);
      PartOfNode(d * m.NodesPerDomain() + n, part, m.domains * m.NodesPerDomain());
    case _ =>
  }

  lemma PartOfNode(node: nat, part: nat, nodes: nat)
    requires node < nodes && part < 3
    ensures node * 3 + part < nodes * 3
  {
  }

  lemma {:induction false} SectionsInOrder(m: Dims, j: nat, k: nat)
    requires j <= k
    ensures SectionStart(m, j) <= SectionStart(m, k)
    decreases k
  {
    if j < k {
      SectionsInOrder(m, j, k - 1);
    }
  }

  /** Two addressed lines with one line number are one line. */
  lemma IndexIsInjective(m: Dims, a: Line, b: Line)
    requires Addressed(m, a) && Addressed(m, b) && Index(m, a) == Index(m, b)
    ensures a == b
  {
    InSection(m, a);
    InSection(m, b);
    if Section(a) < Section(b) {
      SectionsInOrder(m, Section(a) + 1, Section(b));
    } else if Section(b) < Section(a) {
      SectionsInOrder(m, Section(b) + 1, Section(a));
    } else if Section(a) == 3 {
      CellsDiffer(a.domain, Column(a), b.domain, Column(b), m.RecordsPerDomain());
    } else if a.Node? && b.Node? {
      CellsDiffer(a.domain * m.NodesPerDomain() + a.node, a.part, b.domain * m.NodesPerDomain() + b.node, b.part, 3);
      CellsDiffer(a.domain, a.node, b.domain, b.node, m.NodesPerDomain());
    }
  }

  function Column(l: Line): nat
    requires l.Truth? || l.Shadow?
  {
    if l.Truth? then 0 else 1 + l.group
  }

  /** A line stands on a line boundary, inside the area, and overlaps no other. */
  lemma LayoutIsSound(m: Dims, a: Line, b: Line)
    requires Addressed(m, a) && Addressed(m, b)
    ensures (LINE * Index(m, a)) % LINE == 0 && LINE * Index(m, a) + LINE <= ComputeAreaSize(m)
    ensures a != b ==> LINE * Index(m, a) + LINE <= LINE * Index(m, b) || LINE * Index(m, b) + LINE <= LINE * Index(m, a)
  {
    InSection(m, a);
    SectionsInOrder(m, Section(a) + 1, 8);
    if a != b {
      if Index(m, a) == Index(m, b) {
        IndexIsInjective(m, a, b);
        assert false;
      }
    }
  }

  lemma Grows(x: nat, y: nat, g: nat)
    requires x <= y
    ensures x * g <= y * g
  {
  }

  lemma DivAtLeast(a: nat, g: Positive, k: nat)
    requires k * g <= a
    ensures k <= a / g
  {
    assert a == a / g * g + a % g;
    if a / g < k {
      Grows(a / g + 1, k, g);
    }
  }

  /** Enough groups of `perSlot` members for all peers: a peer's index inside its group is below `perSlot`. */
  lemma IndexInGroup(p: nat, peers: nat, perSlot: Positive, groups: Positive)
    requires p < peers && (peers + perSlot - 1) / perSlot <= groups
    ensures p / groups < perSlot
  {
    var least := (peers + perSlot - 1) / perSlot;
    assert peers + perSlot - 1 == least * perSlot + (peers + perSlot - 1) % perSlot;
    Grows(least, groups, perSlot);
    assert p == p / groups * groups + p % groups;
    if perSlot <= p / groups {
      Grows(perSlot, p / groups, groups);
      assert false;
    }
  }

  /** Every peer's bitmap has a place inside the packed line of its group. */
  lemma PackedInsideLine(m: Dims, p: nat)
    requires m.strategy.RequestAgg? && p < m.peers && 0 < (m.domains + 7) / 8 <= LINE
    ensures m.AggregatorGroups() > 0 && Addressed(m, Packed(p % m.AggregatorGroups())) && Addressed(m, Aggregator(p % m.AggregatorGroups()))
    ensures (p / m.AggregatorGroups() + 1) * ((m.domains + 7) / 8) <= LINE
  {
    var bitmapBytes, perSlot := (m.domains + 7) / 8, m.MembersPerSlot();
    GroupInRange(p, m.peers, perSlot);
    IndexInGroup(p, m.peers, perSlot, m.AggregatorGroups());
    Grows(p / m.AggregatorGroups() + 1, perSlot, bitmapBytes);
    assert LINE == LINE / bitmapBytes * bitmapBytes + LINE % bitmapBytes;
  }

  /** And no two peers of one group share a byte of it. */
  lemma PackedApart(p: nat, q: nat, groups: Positive, bytes: nat)
    requires p % groups == q % groups && p < q
    ensures (p / groups + 1) * bytes <= q / groups * bytes
  {
    EarlierInGroup(p, q, groups);
    Grows(p / groups + 1, q / groups, bytes);
  }

  lemma EarlierInGroup(p: nat, q: nat, groups: Positive)
    requires p % groups == q % groups && p < q
    ensures p / groups < q / groups
  {
    assert p == p / groups * groups + p % groups && q == q / groups * groups + q % groups;
    if q / groups <= p / groups {
      Grows(q / groups, p / groups, groups);
      assert false;
    }
  }

  /** Every peer's shadow is one of its domain's, so waiting on it reads an addressed line. */
  lemma ShadowOfPeer(m: Dims, d: nat, p: nat)
    requires d < m.domains && p < m.peers
    ensures Addressed(m, Shadow(d, p / m.groupSize))
  {
    GroupInRange(p, m.peers, m.groupSize);
  }

  lemma GroupInRange(p: nat, peers: nat, g: Positive)
    requires p < peers
    ensures p / g < (peers + g - 1) / g
  {
    assert p == p / g * g + p % g;
    assert (p / g + 1) * g == p / g * g + g;
    DivAtLeast(peers + g - 1, g, p / g + 1);
  }

  /** Every line a climb writes is addressed: the paths of all peers stay inside the domain's own tree. */
  lemma ClimbIsAddressed(m: Dims, d: nat, p: nat, level: nat, part: nat)
    requires m.strategy == Peterson && d < m.domains && p < m.peers && level < TreeGeometry.Depth(m.peers) && part < 3
    ensures Addressed(m, Node(d, TreeGeometry.StepAt(m.peers, p, level).node, part))
  {
    TreeGeometry.AtInRange(m.peers, p, level);
  }

  // ---------- no line is wasted ----------

  function Lines(m: Dims): nat {
    TailAt(m) + m.TailLines() + m.ProfileLines()
  }

  /** The line with a given number, read off the sections in their order. */
  function LineAt(m: Dims, i: nat): Line
    requires i < Lines(m)
  {
    if i == 0 then Header
    else if i == 1 then Admission
    else if i == 2 then Bound
    else if i < MembersAt(m) then
      var domain, copy := (i - 3) / m.RecordsPerDomain(), (i - 3) % m.RecordsPerDomain();
      if copy == 0 then Truth(domain) else Shadow(domain, copy - 1)
    else if i < MembersAt(m) + m.peers then Member(i - MembersAt(m))
    else if i < TailAt(m) then Claim(i - MembersAt(m) - m.peers)
    else if i < TailAt(m) + m.TailLines() then TailLineAt(m, i - TailAt(m))
    else Profile(i - TailAt(m) - m.TailLines())
  }

  function TailLineAt(m: Dims, i: nat): Line
    requires i < m.TailLines()
  {
    if m.strategy == Peterson then
      NodesThere(m, i);
      NodeLineAt(m.NodesPerDomain(), i)
    else DemandLineAt(m.peers, m.AggregatorGroups(), i)
  }

  function NodeLineAt(nodes: Positive, i: nat): Line {
    Node(i / 3 / nodes, i / 3 % nodes, i % 3)
  }

  function DemandLineAt(peers: nat, groups: nat, i: nat): Line {
    if i < peers then Demand(i) else if i < peers + groups then Aggregator(i - peers) else Packed(i - peers - groups)
  }

  lemma NodesThere(m: Dims, i: nat)
    requires i < m.TailLines() && m.strategy == Peterson
    ensures m.NodesPerDomain() > 0
  {
  }

  lemma RowInTable(i: nat, width: Positive, rows: nat)
    requires i < rows * width
    ensures i / width < rows && i == i / width * width + i % width
  {
    if rows <= i / width {
      Grows(rows, i / width, width);
      assert false;
    }
  }

  /** Every line of the area is some accessor's, and reading the sections in order finds which. */
  lemma EveryLineIsAddressed(m: Dims, i: nat)
    requires i < Lines(m)
    ensures Addressed(m, LineAt(m, i)) && Index(m, LineAt(m, i)) == i
    ensures ComputeAreaSize(m) == LINE * Lines(m)
  {
    if 3 <= i < MembersAt(m) {
      RowInTable(i - 3, m.RecordsPerDomain(), m.domains);
    } else if TailAt(m) <= i < TailAt(m) + m.TailLines() {
      TailLineIsAddressed(m, i - TailAt(m));
    }
  }

  lemma TailLineIsAddressed(m: Dims, i: nat)
    requires i < m.TailLines()
    ensures Addressed(m, TailLineAt(m, i)) && Index(m, TailLineAt(m, i)) == TailAt(m) + i
  {
    if m.strategy == Peterson {
      NodesThere(m, i);
      RowInTable(i, 3, m.domains * m.NodesPerDomain());
      RowInTable(i / 3, m.NodesPerDomain(), m.domains);
    }
  }

  /** Within a domain's block the truth comes first, and the shadows follow in the order of their groups. */
  lemma TruthLeadsItsShadows(m: Dims, d: nat, g: nat, h: nat)
    requires d < m.domains && g <= h < m.Groups()
    ensures Index(m, Truth(d)) == 3 + d * m.RecordsPerDomain()
    ensures Index(m, Truth(d)) < Index(m, Shadow(d, g)) <= Index(m, Shadow(d, h)) < Index(m, Truth(d)) + m.RecordsPerDomain()
    ensures d + 1 < m.domains ==> Index(m, Shadow(d, h)) < Index(m, Truth(d + 1))
  {
    Grows(d, d + 1, m.RecordsPerDomain());
  }
}
