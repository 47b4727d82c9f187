/** Validity of the constant catalog: the conditions its tests check,
    proved over the data itself. */
module CatalogFacts {
  import opened Catalog
  import opened Lexicographic
  import opened Sampling
  import opened CaseEvents

  ghost predicate PhasePositive(ph: Phase) {
    ph.mu > 0.0 && ph.sigma > 0.0
  }

  /** All four phases of `p` have positive `mu` and `sigma`. */
  ghost predicate PhasesPositive(p: ProcedureDef) {
    && PhasePositive(p.checkinToPreop) && PhasePositive(p.preopToOp)
    && PhasePositive(p.opToPostop) && PhasePositive(p.postopToDischarge)
  }

  /** Every phase of every catalog procedure has positive parameters. */
  lemma PhasesArePositive()
    ensures forall p :: p in PROCEDURES ==> PhasesPositive(p)
  {
    PhasesPositiveFrom0();
    PhasesPositiveFrom5();
    PhasesPositiveFrom10();
    PhasesPositiveFrom14();
    PhasesPositiveFrom20();
    PhasesPositiveFrom25();
    PhasesPositiveFrom30();
    PhasesPositiveFrom35();
    PhasesPositiveFrom40();
    PhasesPositiveFrom46();
    PhasesPositiveFrom51();
    PhasesPositiveFrom56();
  }

  // The 58-entry catalog is checked in chunks that follow the service-line
  // blocks of `ProcedureAt`: one quantifier over all 58 positions makes the
  // solver unfold the whole table at once and exceeds its resource budget,
  // while each chunk unfolds a single block. The same split serves
  // the `NamesIndexedFrom` and `LinesInBlocksFrom` lemmas below.

  lemma PhasesPositiveFrom0()
    ensures forall k :: 0 <= k < 5 ==> PhasesPositive(ProcedureAt(k))
  {
  }

  lemma PhasesPositiveFrom5()
    ensures forall k :: 5 <= k < 10 ==> PhasesPositive(ProcedureAt(k))
  {
  }

  lemma PhasesPositiveFrom10()
    ensures forall k :: 10 <= k < 14 ==> PhasesPositive(ProcedureAt(k))
  {
  }

  lemma PhasesPositiveFrom14()
    ensures forall k :: 14 <= k < 20 ==> PhasesPositive(ProcedureAt(k))
  {
  }

  lemma PhasesPositiveFrom20()
    ensures forall k :: 20 <= k < 25 ==> PhasesPositive(ProcedureAt(k))
  {
  }

  lemma PhasesPositiveFrom25()
    ensures forall k :: 25 <= k < 30 ==> PhasesPositive(ProcedureAt(k))
  {
  }

  lemma PhasesPositiveFrom30()
    ensures forall k :: 30 <= k < 35 ==> PhasesPositive(ProcedureAt(k))
  {
  }

  lemma PhasesPositiveFrom35()
    ensures forall k :: 35 <= k < 40 ==> PhasesPositive(ProcedureAt(k))
  {
  }

  lemma PhasesPositiveFrom40()
    ensures forall k :: 40 <= k < 46 ==> PhasesPositive(ProcedureAt(k))
  {
  }

  lemma PhasesPositiveFrom46()
    ensures forall k :: 46 <= k < 51 ==> PhasesPositive(ProcedureAt(k))
  {
  }

  lemma PhasesPositiveFrom51()
    ensures forall k :: 51 <= k < 56 ==> PhasesPositive(ProcedureAt(k))
  {
  }

  lemma PhasesPositiveFrom56()
    ensures forall k :: 56 <= k < 58 ==> PhasesPositive(ProcedureAt(k))
  {
  }

  // Distinct names by fingerprint: comparing 58 strings pairwise is 1653
  // string comparisons. Instead, `NameIndex` maps each catalog name, by its
  // length, first character and last character, back to its own position.
  // A function cannot map two equal names to different positions, so the
  // names at positions i and j differ whenever i != j.

  /** The catalog position of the procedure whose name has length `n`,
      first character `a` and last character `z`; -1 when there is none. No
      two catalog names agree on all three. */
  function FingerprintIndex(n: int, a: char, z: char): int {
    match n
    case 4 => if (a, z) == ('E', 'P') then 8 else -1
    case 9 => if (a, z) == ('V', 'y') then 37 else -1
    case 11 => if (a, z) == ('S', 'y') then 17 else -1
    case 12 =>
      if (a, z) == ('B', 'y') then 28
      else if (a, z) == ('M', 'y') then 47
      else -1
    case 13 =>
      if (a, z) == ('T', 'y') then 15
      else if (a, z) == ('A', 'y') then 16
      else if (a, z) == ('S', 'n') then 49
      else if (a, z) == ('C', 'n') then 57
      else -1
    case 14 =>
      if (a, z) == ('B', 'y') then 13
      else if (a, z) == ('L', 'e') then 43
      else if (a, z) == ('T', 'n') then 45
      else -1
    case 15 =>
      if (a, z) == ('E', 'y') then 5
      else if (a, z) == ('P', 'y') then 38
      else if (a, z) == ('L', 'n') then 50
      else -1
    case 16 => if (a, z) == ('H', 'y') then 54 else -1
    case 17 =>
      if (a, z) == ('C', 'y') then 9
      else if (a, z) == ('A', 'y') then 27
      else if (a, z) == ('B', 'y') then 55
      else -1
    case 18 =>
      if (a, z) == ('P', 'n') then 12
      else if (a, z) == ('A', 'n') then 26
      else if (a, z) == ('E', ')') then 39
      else -1
    case 19 => if (a, z) == ('R', 'r') then 23 else -1
    case 20 =>
      if (a, z) == ('F', ')') then 18
      else if (a, z) == ('S', 'y') then 22
      else if (a, z) == ('H', 'n') then 29
      else if (a, z) == ('E', 'n') then 42
      else if (a, z) == ('S', 'n') then 46
      else -1
    case 21 =>
      if (a, z) == ('Y', 'y') then 11
      else if (a, z) == ('C', 'e') then 24
      else -1
    case 22 =>
      if (a, z) == ('D', 'y') then 0
      else if (a, z) == ('F', 'y') then 7
      else if (a, z) == ('T', 'e') then 25
      else if (a, z) == ('D', 'e') then 40
      else if (a, z) == ('I', 'r') then 52
      else -1
    case 23 =>
      if (a, z) == ('C', 'y') then 3
      else if (a, z) == ('C', ')') then 35
      else if (a, z) == ('U', 't') then 36
      else if (a, z) == ('U', 'r') then 53
      else -1
    case 27 => if (a, z) == ('T', 't') then 14 else -1
    case 28 =>
      if (a, z) == ('C', 'y') then 4
      else if (a, z) == ('U', ')') then 6
      else if (a, z) == ('C', 'L') then 10
      else if (a, z) == ('I', 'n') then 19
      else if (a, z) == ('L', 'n') then 31
      else if (a, z) == ('S', 'l') then 34
      else if (a, z) == ('U', 'n') then 44
      else if (a, z) == ('L', 'y') then 51
      else -1
    case 29 =>
      if (a, z) == ('K', ')') then 21
      else if (a, z) == ('H', 'y') then 41
      else -1
    case 30 => if (a, z) == ('R', 's') then 32 else -1
    case 32 => if (a, z) == ('I', 's') then 48 else -1
    case 33 =>
      if (a, z) == ('S', ')') then 2
      else if (a, z) == ('L', 'n') then 30
      else -1
    case 34 =>
      if (a, z) == ('K', 'y') then 20
      else if (a, z) == ('D', 'n') then 56
      else -1
    case 35 => if (a, z) == ('C', 'n') then 33 else -1
    case 36 => if (a, z) == ('S', ')') then 1 else -1
    case _ => -1
  }

  /** The catalog position a name's fingerprint points to. */
  function NameIndex(name: string): int {
    if |name| == 0 then -1 else FingerprintIndex(|name|, name[0], name[|name| - 1])
  }

  /** Procedure names are pairwise distinct: each name's fingerprint
      leads back to its own position. */
  lemma NamesDistinct()
    ensures forall i, j :: 0 <= i < j < |PROCEDURES| ==> PROCEDURES[i].procedureType != PROCEDURES[j].procedureType
  {
    NamesIndexedFrom0();
    NamesIndexedFrom5();
    NamesIndexedFrom10();
    NamesIndexedFrom14();
    NamesIndexedFrom20();
    NamesIndexedFrom25();
    NamesIndexedFrom30();
    NamesIndexedFrom35();
    NamesIndexedFrom40();
    NamesIndexedFrom46();
    NamesIndexedFrom51();
    NamesIndexedFrom56();
    forall i, j | 0 <= i < j < |PROCEDURES|
      ensures PROCEDURES[i].procedureType != PROCEDURES[j].procedureType
    {
      assert NameIndex(PROCEDURES[i].procedureType) == i;
      assert NameIndex(PROCEDURES[j].procedureType) == j;
    }
  }

  // Chunks of `NamesDistinct`, split along the service-line blocks as above.

  lemma NamesIndexedFrom0()
    ensures forall k :: 0 <= k < 5 ==> NameIndex(ProcedureAt(k).procedureType) == k
  {
  }

  lemma NamesIndexedFrom5()
    ensures forall k :: 5 <= k < 10 ==> NameIndex(ProcedureAt(k).procedureType) == k
  {
  }

  lemma NamesIndexedFrom10()
    ensures forall k :: 10 <= k < 14 ==> NameIndex(ProcedureAt(k).procedureType) == k
  {
  }

  lemma NamesIndexedFrom14()
    ensures forall k :: 14 <= k < 20 ==> NameIndex(ProcedureAt(k).procedureType) == k
  {
  }

  lemma NamesIndexedFrom20()
    ensures forall k :: 20 <= k < 25 ==> NameIndex(ProcedureAt(k).procedureType) == k
  {
  }

  lemma NamesIndexedFrom25()
    ensures forall k :: 25 <= k < 30 ==> NameIndex(ProcedureAt(k).procedureType) == k
  {
  }

  lemma NamesIndexedFrom30()
    ensures forall k :: 30 <= k < 35 ==> NameIndex(ProcedureAt(k).procedureType) == k
  {
  }

  lemma NamesIndexedFrom35()
    ensures forall k :: 35 <= k < 40 ==> NameIndex(ProcedureAt(k).procedureType) == k
  {
  }

  lemma NamesIndexedFrom40()
    ensures forall k :: 40 <= k < 46 ==> NameIndex(ProcedureAt(k).procedureType) == k
  {
  }

  lemma NamesIndexedFrom46()
    ensures forall k :: 46 <= k < 51 ==> NameIndex(ProcedureAt(k).procedureType) == k
  {
  }

  lemma NamesIndexedFrom51()
    ensures forall k :: 51 <= k < 56 ==> NameIndex(ProcedureAt(k).procedureType) == k
  {
  }

  lemma NamesIndexedFrom56()
    ensures forall k :: 56 <= k < 58 ==> NameIndex(ProcedureAt(k).procedureType) == k
  {
  }

  // ---------------------------------------------------------------------
  // get_procedures_by_service_line keeps catalog order.

  /** The positions from `k` on in `ps` of the procedures of `line`, in
      increasing order. */
  function MatchPositions(ps: seq<ProcedureDef>, line: string, k: nat): (pos: seq<int>)
    requires k <= |ps|
    ensures forall i :: 0 <= i < |pos| ==> k <= pos[i] < |ps|
    ensures forall i, j :: 0 <= i < j < |pos| ==> pos[i] < pos[j]
    ensures forall m :: k <= m < |ps| ==> (m in pos <==> ps[m].serviceLine == line)
    decreases |ps| - k
  {
    if k == |ps| then []
    else (if ps[k].serviceLine == line then [k] else []) + MatchPositions(ps, line, k + 1)
  }

  /** `get_procedures_by_service_line` returns the catalog entries of the
      line in catalog order: entry `i` of the result is the procedure at
      the `i`-th matching position, and no other entry is returned. */
  lemma SelectInOrder(ps: seq<ProcedureDef>, line: string)
    ensures Select(ps, line) == Pick(ps, MatchPositions(ps, line, 0))
  {
    SelectFrom(ps, line, 0);
    assert ps[0..] == ps;
  }

  /** The entries of `ps` at the positions `pos`, in that order. */
  function Pick(ps: seq<ProcedureDef>, pos: seq<int>): (r: seq<ProcedureDef>)
    requires forall i :: 0 <= i < |pos| ==> 0 <= pos[i] < |ps|
    ensures |r| == |pos| && forall i :: 0 <= i < |pos| ==> r[i] == ps[pos[i]]
  {
    seq(|pos|, i requires 0 <= i < |pos| => ps[pos[i]])
  }

  lemma {:induction false} SelectFrom(ps: seq<ProcedureDef>, line: string, k: nat)
    requires k <= |ps|
    ensures Select(ps[k..], line) == Pick(ps, MatchPositions(ps, line, k))
    decreases |ps| - k
  {
    if k < |ps| {
      SelectFrom(ps, line, k + 1);
      SelectStep(ps, line, k);
      if ps[k].serviceLine == line {
        PickCons(ps, k, MatchPositions(ps, line, k + 1));
      }
    }
  }

  lemma SelectStep(ps: seq<ProcedureDef>, line: string, k: nat)
    requires k < |ps|
    ensures Select(ps[k..], line) == (if ps[k].serviceLine == line then [ps[k]] else []) + Select(ps[k + 1..], line)
  {
    assert ps[k..][1..] == ps[k + 1..];
  }

  lemma PickCons(ps: seq<ProcedureDef>, k: int, later: seq<int>)
    requires 0 <= k < |ps| && forall i :: 0 <= i < |later| ==> 0 <= later[i] < |ps|
    ensures Pick(ps, [k] + later) == [ps[k]] + Pick(ps, later)
  {
  }

  /** Every entry is kept when all entries are of the line. */
  lemma {:induction false} SelectAll(ps: seq<ProcedureDef>, line: string)
    requires forall p :: p in ps ==> p.serviceLine == line
    ensures Select(ps, line) == ps
    decreases |ps|
  {
    if |ps| > 0 {
      assert ps[0] in ps;
      assert forall p :: p in ps[1..] ==> p in ps;
      SelectAll(ps[1..], line);
      assert ps == [ps[0]] + ps[1..];
    }
  }

  /** Selection distributes over concatenation. */
  lemma {:induction false} SelectAppend(a: seq<ProcedureDef>, b: seq<ProcedureDef>, line: string)
    ensures Select(a + b, line) == Select(a, line) + Select(b, line)
    decreases |a|
  {
    if |a| > 0 {
      assert (a + b)[1..] == a[1..] + b;
      SelectAppend(a[1..], b, line);
    } else {
      assert a + b == b;
    }
  }

  // ---------------------------------------------------------------------
  // SERVICE_LINES.

  /** The service lines, as `sorted` orders them. */
  const SORTED_LINES: seq<string> :=
    ["Cardiology", "Dermatology", "ENT", "GI", "General", "Gynecology", "Ophthalmology", "Orthopedics", "Pain", "Urology"]

  /** The service line of catalog position `k`: the catalog lists its
      procedures line by line. */
  function BlockLine(k: int): string {
    if k < 10 then "GI"
    else if k < 14 then "Ophthalmology"
    else if k < 20 then "ENT"
    else if k < 30 then "Orthopedics"
    else if k < 35 then "Pain"
    else if k < 40 then "Urology"
    else if k < 46 then "Gynecology"
    else if k < 51 then "Dermatology"
    else if k < 56 then "General"
    else "Cardiology"
  }

  /** Each catalog procedure belongs to the line of its block. */
  lemma LinesInBlocks()
    ensures forall k :: 0 <= k < 58 ==> ProcedureAt(k).serviceLine == BlockLine(k)
  {
    LinesInBlocksFrom0();
    LinesInBlocksFrom5();
    LinesInBlocksFrom10();
    LinesInBlocksFrom14();
    LinesInBlocksFrom20();
    LinesInBlocksFrom25();
    LinesInBlocksFrom30();
    LinesInBlocksFrom35();
    LinesInBlocksFrom40();
    LinesInBlocksFrom46();
    LinesInBlocksFrom51();
    LinesInBlocksFrom56();
  }

  // Chunks of `LinesInBlocks`, split along the service-line blocks as above.

  lemma LinesInBlocksFrom0()
    ensures forall k :: 0 <= k < 5 ==> ProcedureAt(k).serviceLine == BlockLine(k)
  {
  }

  lemma LinesInBlocksFrom5()
    ensures forall k :: 5 <= k < 10 ==> ProcedureAt(k).serviceLine == BlockLine(k)
  {
  }

  lemma LinesInBlocksFrom10()
    ensures forall k :: 10 <= k < 14 ==> ProcedureAt(k).serviceLine == BlockLine(k)
  {
  }

  lemma LinesInBlocksFrom14()
    ensures forall k :: 14 <= k < 20 ==> ProcedureAt(k).serviceLine == BlockLine(k)
  {
  }

  lemma LinesInBlocksFrom20()
    ensures forall k :: 20 <= k < 25 ==> ProcedureAt(k).serviceLine == BlockLine(k)
  {
  }

  lemma LinesInBlocksFrom25()
    ensures forall k :: 25 <= k < 30 ==> ProcedureAt(k).serviceLine == BlockLine(k)
  {
  }

  lemma LinesInBlocksFrom30()
    ensures forall k :: 30 <= k < 35 ==> ProcedureAt(k).serviceLine == BlockLine(k)
  {
  }

  lemma LinesInBlocksFrom35()
    ensures forall k :: 35 <= k < 40 ==> ProcedureAt(k).serviceLine == BlockLine(k)
  {
  }

  lemma LinesInBlocksFrom40()
    ensures forall k :: 40 <= k < 46 ==> ProcedureAt(k).serviceLine == BlockLine(k)
  {
  }

  lemma LinesInBlocksFrom46()
    ensures forall k :: 46 <= k < 51 ==> ProcedureAt(k).serviceLine == BlockLine(k)
  {
  }

  lemma LinesInBlocksFrom51()
    ensures forall k :: 51 <= k < 56 ==> ProcedureAt(k).serviceLine == BlockLine(k)
  {
  }

  lemma LinesInBlocksFrom56()
    ensures forall k :: 56 <= k < 58 ==> ProcedureAt(k).serviceLine == BlockLine(k)
  {
  }

  /** Strictly increasing neighbours make a strictly sorted list. */
  lemma {:induction false} SortedFromAdjacent(s: seq<string>)
    requires forall i :: 0 <= i < |s| - 1 ==> Less(s[i], s[i + 1])
    ensures StrictlySorted(s)
    decreases |s|
  {
    if |s| > 1 {
      SortedFromAdjacent(s[1..]);
      forall j | 1 < j < |s| ensures Less(s[0], s[j]) {
        assert Less(s[1..][0], s[1..][j - 1]);
        LessTransitive(s[0], s[1], s[j]);
      }
    }
  }

  lemma SortedLinesSorted()
    ensures StrictlySorted(SORTED_LINES)
  {
    var s := SORTED_LINES;
    assert Less(s[0], s[1]) && Less(s[1], s[2]) && Less(s[2], s[3]);
    assert Less(s[3], s[4]) by { assert Less(s[3][1..], s[4][1..]); }
    assert Less(s[4], s[5]) by { assert Less(s[4][1..], s[5][1..]); }
    assert Less(s[5], s[6]);
    assert Less(s[6], s[7]) by { assert Less(s[6][1..], s[7][1..]); }
    assert Less(s[7], s[8]) && Less(s[8], s[9]);
    SortedFromAdjacent(s);
  }

  /** The lines the catalog's procedures use are exactly the ten listed. */
  lemma LinesUsed()
    ensures forall x :: x in LinesOf(PROCEDURES) <==> x in SORTED_LINES
  {
    LinesInBlocks();
    var ls := LinesOf(PROCEDURES);
    forall x | x in ls ensures x in SORTED_LINES {
      var k :| 0 <= k < |ls| && ls[k] == x;
      assert ls[k] == BlockLine(k);
    }
    assert ls[56] == BlockLine(56) && ls[46] == BlockLine(46) && ls[14] == BlockLine(14);
    assert ls[0] == BlockLine(0) && ls[51] == BlockLine(51) && ls[40] == BlockLine(40);
    assert ls[10] == BlockLine(10) && ls[20] == BlockLine(20) && ls[30] == BlockLine(30);
    assert ls[35] == BlockLine(35);
  }

  /** `SERVICE_LINES` is the sorted list of the ten lines the catalog uses:
      sorted, without duplicates, and at least eight of them. */
  lemma ServiceLinesListed()
    ensures SERVICE_LINES == SORTED_LINES
    ensures StrictlySorted(SERVICE_LINES) && |SERVICE_LINES| == 10
  {
    LinesUsed();
    SortedLinesSorted();
    SortedByElements(SERVICE_LINES, SORTED_LINES);
  }

  // ---------------------------------------------------------------------
  // Facilities.

  /** The three facilities: each has a positive, non-empty daily volume
      range, positive biases keyed by service lines of the catalog, and a
      label carrying the same id. */
  lemma FacilitiesWellFormed()
    ensures |FACILITIES| == 3
    ensures forall k :: 0 <= k < |FACILITIES| ==> 0 < FACILITIES[k].volumeMin <= FACILITIES[k].volumeMax
    ensures forall k, line :: 0 <= k < |FACILITIES| && line in FACILITIES[k].bias ==>
      FACILITIES[k].bias[line] > 0.0 && line in SERVICE_LINES
    ensures forall k :: 0 <= k < |FACILITIES| ==> FacilityLabelAt(k).id == FACILITIES[k].id
  {
    ServiceLinesListed();
    assert FACILITIES == [FacilityAt(0), FacilityAt(1), FacilityAt(2)];
  }

  /** Every weight `_build_procedure_weights` can give for a catalog
      facility is positive: a listed bias is positive and the default is
      1.0, so the weighted procedure choice has a positive total. */
  lemma CatalogBiasesPositive()
    ensures forall k, line :: 0 <= k < |FACILITIES| ==> BiasFor(FACILITIES[k], line) > 0.0
  {
    FacilitiesWellFormed();
  }

  // ---------------------------------------------------------------------
  // ANESTHESIA_TYPES.

  /** Index of an anesthesia key from its length and first letter, which
      tell the ten keys apart; -1 for any other string. */
  function KeyIndex(line: string): int {
    if |line| == 0 then -1
    else match (|line|, line[0])
      case (2, 'G') => 0
      case (13, 'O') => 1
      case (3, 'E') => 2
      case (11, 'O') => 3
      case (4, 'P') => 4
      case (7, 'U') => 5
      case (10, 'G') => 6
      case (11, 'D') => 7
      case (7, 'G') => 8
      case (10, 'C') => 9
      case _ => -1
  }

  lemma KeysIndexed()
    ensures forall k :: 0 <= k < 10 ==> KeyIndex(AnesthesiaEntryAt(k).line) == k
  {
  }

  /** No service line is listed twice in `ANESTHESIA_TYPES`, so the list is
      the dictionary it models. */
  lemma AnesthesiaKeysDistinct()
    ensures |ANESTHESIA_TYPES| == 10
    ensures forall i, j :: 0 <= i < j < |ANESTHESIA_TYPES| ==> ANESTHESIA_TYPES[i].line != ANESTHESIA_TYPES[j].line
  {
    KeysIndexed();
    forall i, j | 0 <= i < j < |ANESTHESIA_TYPES| ensures ANESTHESIA_TYPES[i].line != ANESTHESIA_TYPES[j].line {
      assert KeyIndex(ANESTHESIA_TYPES[i].line) == i && KeyIndex(ANESTHESIA_TYPES[j].line) == j;
    }
  }

  /** Looking up the key of entry `k` yields that entry's choices. */
  lemma ChoicesOfEntry(k: int)
    requires 0 <= k < |ANESTHESIA_TYPES|
    ensures HasAnesthesia(ANESTHESIA_TYPES[k].line)
    ensures AnesthesiaChoices(ANESTHESIA_TYPES[k].line) == ANESTHESIA_TYPES[k].choices
  {
    var e := ANESTHESIA_TYPES[k];
    assert e in ANESTHESIA_TYPES;
    var found := Lookup(ANESTHESIA_TYPES, e.line);
    AnesthesiaKeysDistinct();
    var m :| 0 <= m < |ANESTHESIA_TYPES| && ANESTHESIA_TYPES[m] == AnesthesiaEntry(e.line, found.value);
    assert m == k;
  }

  lemma SumOfThree(ws: seq<real>)
    requires |ws| == 3
    ensures Sum(ws) == ws[0] + ws[1] + ws[2]
  {
    assert Prefix(ws, 1) == ws[0];
    assert Prefix(ws, 2) == ws[0] + ws[1];
  }

  lemma SumOfFour(ws: seq<real>)
    requires |ws| == 4
    ensures Sum(ws) == ws[0] + ws[1] + ws[2] + ws[3]
  {
    assert Prefix(ws, 1) == ws[0];
    assert Prefix(ws, 2) == ws[0] + ws[1];
    assert Prefix(ws, 3) == ws[0] + ws[1] + ws[2];
  }

  /** The weights of anesthesia entry `k` add up to exactly 1. */
  lemma EntryWeightsSumToOne(k: int)
    requires 0 <= k < 10
    ensures Sum(Weights(AnesthesiaEntryAt(k).choices)) == 1.0
  {
    var ws := Weights(AnesthesiaEntryAt(k).choices);
    if k == 5 {
      SumOfFour(ws);
    } else {
      SumOfThree(ws);
    }
  }

  /** Where the `j`-th sorted service line sits in `ANESTHESIA_TYPES`. */
  function EntryOfLine(j: int): int {
    match j
    case 0 => 9
    case 1 => 7
    case 2 => 2
    case 3 => 0
    case 4 => 8
    case 5 => 6
    case 6 => 1
    case 7 => 3
    case 8 => 4
    case _ => 5
  }

  lemma EntriesOfLines()
    ensures forall j :: 0 <= j < 10 ==>
      0 <= EntryOfLine(j) < 10 && AnesthesiaEntryAt(EntryOfLine(j)).line == SORTED_LINES[j]
  {
  }

  /** Every service line of the catalog has its own anesthesia table, and
      its weights add up to 1 (the catalog only asks for 1 within 0.01). */
  lemma EveryLineHasAnesthesia()
    ensures forall line :: line in SERVICE_LINES ==>
      HasAnesthesia(line) && 0.99 <= Sum(Weights(AnesthesiaChoices(line))) <= 1.01
  {
    ServiceLinesListed();
    EntriesOfLines();
    forall line | line in SERVICE_LINES
      ensures HasAnesthesia(line) && Sum(Weights(AnesthesiaChoices(line))) == 1.0
    {
      var j :| 0 <= j < 10 && SORTED_LINES[j] == line;
      LineHasEntry(EntryOfLine(j), line);
    }
  }

  lemma LineHasEntry(k: int, line: string)
    requires 0 <= k < 10 && AnesthesiaEntryAt(k).line == line
    ensures HasAnesthesia(line) && Sum(Weights(AnesthesiaChoices(line))) == 1.0
  {
    assert ANESTHESIA_TYPES[k] == AnesthesiaEntryAt(k);
    ChoicesOfEntry(k);
    EntryWeightsSumToOne(k);
  }

  // ---------------------------------------------------------------------
  // Selection by service line.

  /** No procedure of `line` in `ps`: nothing is selected. */
  lemma SelectNone(ps: seq<ProcedureDef>, line: string)
    requires forall k :: 0 <= k < |ps| ==> ps[k].serviceLine != line
    ensures Select(ps, line) == []
  {
  }

  lemma BlockOfGastroenterology()
    ensures forall k :: BlockLine(k) == "GI" <==> k < 10
  {
  }

  /** The GI procedures are the first ten of the catalog, in catalog order. */
  lemma GastroenterologyProcedures()
    ensures ProceduresByServiceLine("GI") == PROCEDURES[..10]
    ensures |ProceduresByServiceLine("GI")| == 10
  {
    assert PROCEDURES == PROCEDURES[..10] + PROCEDURES[10..];
    SelectAppend(PROCEDURES[..10], PROCEDURES[10..], "GI");
    FirstBlockAllGastroenterology();
    RestNoGastroenterology();
  }

  lemma FirstBlockAllGastroenterology()
    ensures Select(PROCEDURES[..10], "GI") == PROCEDURES[..10]
  {
    LinesInBlocks();
    BlockOfGastroenterology();
    var head := PROCEDURES[..10];
    forall k | 0 <= k < |head| ensures head[k].serviceLine == "GI" {
      assert head[k] == ProcedureAt(k);
    }
    SelectAll(head, "GI");
  }

  lemma RestNoGastroenterology()
    ensures Select(PROCEDURES[10..], "GI") == []
  {
    LinesInBlocks();
    BlockOfGastroenterology();
    var tail := PROCEDURES[10..];
    forall k | 0 <= k < |tail| ensures tail[k].serviceLine != "GI" {
      assert tail[k] == ProcedureAt(k + 10);
    }
    SelectNone(tail, "GI");
  }
}
