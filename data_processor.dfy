/**
 * The dataset builder: the join of CVE records with Exploit-DB exploits and
 * Metasploit modules on CVE identifiers, the instruction/input/output
 * templates, and the shuffled train/validation/test split.
 */
module DataProcessor {
  import opened Wrappers
  import opened Text

  // ---------------------------------------------------------------------
  // The loaded records
  // ---------------------------------------------------------------------

  /**
   * A JSON field the builder only passes through or interpolates: a string,
   * a number carried with the text `str()` gives for it, or `null`.
   */
  datatype Scalar = Str(s: string) | Num(repr: string) | Null

  /** `f"{x}"` */
  function Render(x: Scalar): string {
    match x
    case Str(s) => s
    case Num(repr) => repr
    case Null => "None"
  }

  /** An element of the CVE file: the fields the join reads. */
  datatype CveEntry = CveEntry(cveId: string, description: Scalar, cvssScore: Scalar)

  /** An element of the Exploit-DB file; `codes` is `None` when absent or `null`. */
  datatype Exploit = Exploit(id: Scalar, exploitType: Scalar, platform: Scalar, content: Scalar, codes: Option<string>)

  /** An element of the Metasploit file; an absent `cve_ids` list is the empty one. */
  datatype Module = Module(id: Scalar, platform: Scalar, content: Scalar, cveIds: seq<string>)

  /** An element of the shellcode file. */
  datatype Shellcode = Shellcode(platform: Scalar, shellcodeType: Scalar, description: Scalar, content: Scalar)

  /** A dictionary of `linked_data`. */
  datatype LinkedPair = LinkedPair(
    cveId: string,
    cveDescription: Scalar,
    cvssScore: Scalar,
    exploitId: Scalar,
    exploitType: Scalar,
    platform: Scalar,
    exploitCode: Scalar,
    source: string)

  /** A dictionary of `formatted_data`. */
  datatype Example = Example(instruction: string, input: string, output: Scalar, source: string)

  // ---------------------------------------------------------------------
  // The CVE map: {cve['cve_id']: cve for cve in self.cves}
  // ---------------------------------------------------------------------

  function BuildCveMap(cves: seq<CveEntry>): map<string, CveEntry> {
    if cves == [] then map[]
    else
      var last := cves[|cves| - 1];
      BuildCveMap(cves[..|cves| - 1])[last.cveId := last]
  }

  /**
   * The keys are exactly the ids the records carry, and each key maps to
   * the last record carrying it.
   */
  lemma {:induction false} CveMapLastWins(cves: seq<CveEntry>, id: string)
    ensures var m := BuildCveMap(cves);
      && (id in m <==> exists j :: 0 <= j < |cves| && cves[j].cveId == id)
      && (id in m ==> exists j :: 0 <= j < |cves| && m[id] == cves[j] && cves[j].cveId == id
                                 && forall j' :: j < j' < |cves| ==> cves[j'].cveId != id)
  {
    if cves != [] {
      var front := cves[..|cves| - 1];
      var last := cves[|cves| - 1];
      CveMapLastWins(front, id);
      assert forall j :: 0 <= j < |front| ==> front[j] == cves[j];
      if last.cveId != id && id in BuildCveMap(front) {
        var j :| 0 <= j < |front| && BuildCveMap(front)[id] == front[j] && front[j].cveId == id
                 && forall j' :: j < j' < |front| ==> front[j'].cveId != id;
        assert forall j' :: j < j' < |cves| ==> cves[j'].cveId != id;
      }
    }
  }

  // ---------------------------------------------------------------------
  // re.findall(r'CVE-\d{4}-\d+', codes)
  // ---------------------------------------------------------------------

  /** `CVE-\d{4}-\d` matches at the start of `s`. */
  predicate CveIdAt(s: string) {
    |s| >= 10 && s[..4] == "CVE-" && AllDigits(s[4..8]) && s[8] == '-' && IsDigit(s[9])
  }

  /** A whole identifier `CVE-\d{4}-\d+`. */
  predicate IsCveId(t: string) {
    CveIdAt(t) && AllDigits(t[9..])
  }

  /** The identifiers in `s`, scanned left to right, each match taking every digit it can. */
  function FindIds(s: string): (r: seq<string>)
    ensures forall k :: 0 <= k < |r| ==> IsCveId(r[k])
    decreases |s|
  {
    if s == [] then []
    else if CveIdAt(s) then
      var e := DigitEnd(s, 9);
      assert e > 9;
      var id := s[..e];
      assert id[..4] == s[..4] && id[4..8] == s[4..8] && id[8] == s[8] && id[9] == s[9];
      assert id[9..] == s[9..e];
      [s[..e]] + FindIds(s[e..])
    else FindIds(s[1..])
  }

  /** A match starts at `p` in `s`, and `t` is the identifier it takes: the prefix up to the last digit of its run. */
  predicate IdAt(s: string, p: int, t: string) {
    0 <= p < |s| && CveIdAt(s[p..]) && t == s[p..][..DigitEnd(s[p..], 9)]
  }

  /** `t` is the identifier of a match starting somewhere in `s`. */
  ghost predicate Named(s: string, t: string) {
    exists p :: IdAt(s, p, t)
  }

  /** Positions before `p` start no match, so the scan passes over them. */
  lemma {:induction false} FindIdsSkipTo(s: string, p: nat)
    requires p <= |s|
    requires forall j :: 0 <= j < p ==> !CveIdAt(s[j..])
    decreases p
    ensures FindIds(s) == FindIds(s[p..])
  {
    if p > 0 {
      assert s[0..] == s;
      assert FindIds(s) == FindIds(s[1..]);
      forall j | 0 <= j < p - 1 ensures !CveIdAt(s[1..][j..]) {
        assert s[1..][j..] == s[j + 1..];
      }
      FindIdsSkipTo(s[1..], p - 1);
      assert s[1..][p - 1..] == s[p..];
    }
  }

  /**
   * The first identifier is taken at the leftmost match, with every digit
   * that follows, and the scan resumes right after it.
   */
  lemma FindIdsLeftmost(s: string, p: nat)
    requires p < |s| && CveIdAt(s[p..])
    requires forall j :: 0 <= j < p ==> !CveIdAt(s[j..])
    ensures var t := s[p..];
      var e := DigitEnd(t, 9);
      FindIds(s) == [t[..e]] + FindIds(t[e..])
  {
    FindIdsSkipTo(s, p);
  }

  /** A text where no match starts anywhere names no identifier. */
  lemma FindIdsNone(s: string)
    requires forall j :: 0 <= j < |s| ==> !CveIdAt(s[j..])
    ensures FindIds(s) == []
  {
    FindIdsSkipTo(s, |s|);
  }

  /** Every identifier found is taken from a match that starts somewhere in the text. */
  lemma {:induction false} FindIdsOccur(s: string)
    decreases |s|
    ensures forall k :: 0 <= k < |FindIds(s)| ==> Named(s, FindIds(s)[k])
  {
    if s != [] {
      assert s[0..] == s;
      var n := if CveIdAt(s) then DigitEnd(s, 9) else 1;
      var head := if CveIdAt(s) then [s[..n]] else [];
      assert FindIds(s) == head + FindIds(s[n..]);
      assert head != [] ==> IdAt(s, 0, head[0]);
      FindIdsOccur(s[n..]);
      NamedStep(s, n, head, FindIds(s[n..]));
    }
  }

  /** The step of `FindIdsOccur`: an identifier at the start, if any, then the identifiers of a suffix. */
  lemma NamedStep(s: string, n: nat, head: seq<string>, ids: seq<string>)
    requires n <= |s| && |head| <= 1 && (head != [] ==> IdAt(s, 0, head[0]))
    requires forall k :: 0 <= k < |ids| ==> Named(s[n..], ids[k])
    ensures forall k :: 0 <= k < |head + ids| ==> Named(s, (head + ids)[k])
  {
    forall k | 0 <= k < |head + ids| ensures Named(s, (head + ids)[k]) {
      if k < |head| {
        assert (head + ids)[k] == head[0];
        assert IdAt(s, 0, (head + ids)[k]);
      } else {
        var t := ids[k - |head|];
        assert (head + ids)[k] == t;
        var p' :| IdAt(s[n..], p', t);
        assert s[n..][p'..] == s[n + p'..];
        assert IdAt(s, n + p', (head + ids)[k]);
      }
    }
  }

  /** Identifiers written one after another, each followed by a space. */
  function SpacedIds(ids: seq<string>): string {
    if ids == [] then "" else ids[0] + " " + SpacedIds(ids[1..])
  }

  lemma NoIdAtSpace(t: string)
    requires |t| > 0 && t[0] == ' '
    ensures !CveIdAt(t)
  {
    if |t| >= 4 {
      assert t[..4][0] == ' ';
    }
  }

  lemma FindIdsHead(id: string, rest: string)
    requires IsCveId(id)
    ensures FindIds(id + " " + rest) == [id] + FindIds(rest)
  {
    var s := id + " " + rest;
    assert s[..|id|] == id;
    assert s[..4] == id[..4] && s[4..8] == id[4..8] && s[8] == id[8] && s[9] == id[9];
    assert s[9..|id|] == id[9..];
    DigitEndUnique(s, 9, |id|);
    var t := s[|id|..];
    assert t == " " + rest;
    NoIdAtSpace(t);
    assert t[1..] == rest;
  }

  /** The scan recovers every identifier of a space-separated list, in order. */
  lemma {:induction false} FindIdsOfSpacedIds(ids: seq<string>)
    requires forall k :: 0 <= k < |ids| ==> IsCveId(ids[k])
    ensures FindIds(SpacedIds(ids)) == ids
  {
    if ids != [] {
      FindIdsHead(ids[0], SpacedIds(ids[1..]));
      FindIdsOfSpacedIds(ids[1..]);
    }
  }

  // ---------------------------------------------------------------------
  // The join
  // ---------------------------------------------------------------------

  /** The ids an exploit names: the matches in its `codes`, none when `codes` is absent or empty. */
  function ExploitIds(e: Exploit): seq<string> {
    if e.codes.None? || e.codes.value == "" then [] else FindIds(e.codes.value)
  }

  /** Where a pair comes from, an Exploit-DB exploit or a Metasploit module, with the ids it names. */
  datatype Origin =
    | FromExploit(exploit: Exploit, cveIds: seq<string>)
    | FromModule(msfModule: Module, cveIds: seq<string>)

  /** The dictionary appended for one matched id. */
  function MakePair(id: string, c: CveEntry, o: Origin): LinkedPair {
    match o
    case FromExploit(e, _) =>
      LinkedPair(id, c.description, c.cvssScore, e.id, e.exploitType, e.platform, e.content, "exploit-db")
    case FromModule(md, _) =>
      LinkedPair(id, c.description, c.cvssScore, md.id, Str("metasploit_module"), md.platform, md.content, "metasploit")
  }

  /** The pairs of one origin for the ids `ids`: one per id that is a key of `m`. */
  function PairsFor(o: Origin, ids: seq<string>, m: map<string, CveEntry>): seq<LinkedPair> {
    if ids == [] then []
    else
      var id := ids[|ids| - 1];
      PairsFor(o, ids[..|ids| - 1], m) + (if id in m then [MakePair(id, m[id], o)] else [])
  }

  /** The pairs of a sequence of origins, in origin order. */
  function Links(os: seq<Origin>, m: map<string, CveEntry>): seq<LinkedPair> {
    if os == [] then []
    else Links(os[..|os| - 1], m) + PairsFor(os[|os| - 1], os[|os| - 1].cveIds, m)
  }

  lemma LinksStep(os: seq<Origin>, i: nat, m: map<string, CveEntry>)
    requires i < |os|
    ensures Links(os[..i + 1], m) == Links(os[..i], m) + PairsFor(os[i], os[i].cveIds, m)
  {
    assert os[..i + 1][..i] == os[..i];
  }

  lemma PairsStep(o: Origin, ids: seq<string>, j: nat, m: map<string, CveEntry>)
    requires j < |ids|
    ensures PairsFor(o, ids[..j + 1], m) == PairsFor(o, ids[..j], m) + (if ids[j] in m then [MakePair(ids[j], m[ids[j]], o)] else [])
  {
    assert ids[..j + 1][..j] == ids[..j];
  }

  function ExploitOrigins(exploits: seq<Exploit>): seq<Origin>
  {
    seq(|exploits|, k requires 0 <= k < |exploits| => FromExploit(exploits[k], ExploitIds(exploits[k])))
  }

  function ModuleOrigins(modules: seq<Module>): seq<Origin>
  {
    seq(|modules|, k requires 0 <= k < |modules| => FromModule(modules[k], modules[k].cveIds))
  }

  /** What `link_data` returns: all Exploit-DB pairs, then all Metasploit pairs. */
  function LinkedData(cves: seq<CveEntry>, exploits: seq<Exploit>, modules: seq<Module>): seq<LinkedPair> {
    var m := BuildCveMap(cves);
    Links(ExploitOrigins(exploits), m) + Links(ModuleOrigins(modules), m)
  }

  /** The ids of `ids` that are keys of `m`, in order and with repetitions. */
  function KnownIds(ids: seq<string>, m: map<string, CveEntry>): seq<string> {
    if ids == [] then []
    else KnownIds(ids[..|ids| - 1], m) + (if ids[|ids| - 1] in m then [ids[|ids| - 1]] else [])
  }

  function PairIds(ps: seq<LinkedPair>): seq<string>
  {
    seq(|ps|, k requires 0 <= k < |ps| => ps[k].cveId)
  }

  /**
   * No deduplication and no invention: the pairs of one origin carry
   * exactly the known ids, in match order and each as often as it was
   * matched, and each pair is the snapshot of the map's record for its id.
   */
  lemma {:induction false} PairsForFacts(o: Origin, ids: seq<string>, m: map<string, CveEntry>)
    ensures var ps := PairsFor(o, ids, m);
      && PairIds(ps) == KnownIds(ids, m)
      && forall k :: 0 <= k < |ps| ==> ps[k].cveId in m && ps[k] == MakePair(ps[k].cveId, m[ps[k].cveId], o)
  {
    if ids != [] {
      var front := ids[..|ids| - 1];
      PairsForFacts(o, front, m);
      var ps := PairsFor(o, ids, m);
      var tail := if ids[|ids| - 1] in m then [MakePair(ids[|ids| - 1], m[ids[|ids| - 1]], o)] else [];
      assert ps == PairsFor(o, front, m) + tail;
      assert PairIds(ps) == PairIds(PairsFor(o, front, m)) + PairIds(tail);
    }
  }

  /**
   * `p` is the snapshot of the map's record for its id, built from one of
   * the origins that names that id.
   */
  ghost predicate Justified(p: LinkedPair, os: seq<Origin>, m: map<string, CveEntry>) {
    p.cveId in m
    && exists j :: 0 <= j < |os| && p == MakePair(p.cveId, m[p.cveId], os[j]) && p.cveId in KnownIds(os[j].cveIds, m)
  }

  /** Every pair of the join is justified by the map and an origin. */
  lemma {:induction false} LinksSound(os: seq<Origin>, m: map<string, CveEntry>)
    ensures forall k :: 0 <= k < |Links(os, m)| ==> Justified(Links(os, m)[k], os, m)
  {
    if os != [] {
      var front := os[..|os| - 1];
      var o := os[|os| - 1];
      LinksSound(front, m);
      var qs := PairsFor(o, o.cveIds, m);
      PairsForFacts(o, o.cveIds, m);
      var ps := Links(os, m);
      assert ps == Links(front, m) + qs;
      forall k | 0 <= k < |ps|
        ensures Justified(ps[k], os, m)
      {
        var p := ps[k];
        if k < |Links(front, m)| {
          assert p == Links(front, m)[k];
          assert Justified(p, front, m);
          var j :| 0 <= j < |front| && p == MakePair(p.cveId, m[p.cveId], front[j])
                   && p.cveId in KnownIds(front[j].cveIds, m);
          assert front[j] == os[j];
        } else {
          var i := k - |Links(front, m)|;
          assert p == qs[i];
          assert PairIds(qs)[i] == p.cveId;
          assert os[|os| - 1] == o;
        }
      }
    }
  }

  /**
   * Every Exploit-DB pair comes from an exploit whose `codes` text holds a
   * match of the identifier pattern taking exactly the pair's id.
   */
  lemma ExploitLinksNamed(exploits: seq<Exploit>, m: map<string, CveEntry>)
    ensures var ps := Links(ExploitOrigins(exploits), m);
      forall k :: 0 <= k < |ps| ==>
        exists j :: 0 <= j < |exploits| && ps[k].exploitId == exploits[j].id
                    && exploits[j].codes.Some? && Named(exploits[j].codes.value, ps[k].cveId)
  {
    var os := ExploitOrigins(exploits);
    var ps := Links(os, m);
    LinksSound(os, m);
    forall k | 0 <= k < |ps|
      ensures exists j :: 0 <= j < |exploits| && ps[k].exploitId == exploits[j].id
                          && exploits[j].codes.Some? && Named(exploits[j].codes.value, ps[k].cveId)
    {
      var p := ps[k];
      assert Justified(p, os, m);
      var j :| 0 <= j < |os| && p == MakePair(p.cveId, m[p.cveId], os[j]) && p.cveId in KnownIds(os[j].cveIds, m);
      var e := exploits[j];
      assert os[j] == FromExploit(e, ExploitIds(e));
      KnownIdsSubset(ExploitIds(e), m, p.cveId);
      var i :| 0 <= i < |ExploitIds(e)| && ExploitIds(e)[i] == p.cveId;
      FindIdsOccur(e.codes.value);
      assert Named(e.codes.value, FindIds(e.codes.value)[i]);
    }
  }

  /** Every Exploit-DB pair precedes every Metasploit pair, and each part carries its source tag. */
  lemma LinkedDataOrder(cves: seq<CveEntry>, exploits: seq<Exploit>, modules: seq<Module>)
    ensures var m := BuildCveMap(cves);
      var ed := Links(ExploitOrigins(exploits), m);
      var ms := Links(ModuleOrigins(modules), m);
      && LinkedData(cves, exploits, modules) == ed + ms
      && (forall k :: 0 <= k < |ed| ==> ed[k].source == "exploit-db")
      && (forall k :: 0 <= k < |ms| ==> ms[k].source == "metasploit" && ms[k].exploitType == Str("metasploit_module"))
  {
    var m := BuildCveMap(cves);
    LinksSound(ExploitOrigins(exploits), m);
    LinksSound(ModuleOrigins(modules), m);
  }

  /** An exploit whose `codes` is absent or empty contributes no pair. */
  lemma NoCodesNoPairs(e: Exploit, m: map<string, CveEntry>)
    requires e.codes.None? || e.codes.value == ""
    ensures ExploitIds(e) == [] && PairsFor(FromExploit(e, ExploitIds(e)), ExploitIds(e), m) == []
  {
  }

  /**
   * The Metasploit branch cannot match NVD-style keys: when every key of the
   * map starts with `CVE-` and no module id does (the shape the module
   * scanner produces), the Metasploit part of the join is empty.
   */
  lemma {:induction false} PrefixlessModuleIdsNeverLink(modules: seq<Module>, m: map<string, CveEntry>)
    requires forall key :: key in m ==> StartsWith(key, "CVE-")
    requires forall k, i :: 0 <= k < |modules| && 0 <= i < |modules[k].cveIds| ==> !StartsWith(modules[k].cveIds[i], "CVE-")
    ensures Links(ModuleOrigins(modules), m) == []
  {
    var os := ModuleOrigins(modules);
    LinksSound(os, m);
    var ps := Links(os, m);
    if ps != [] {
      var id := ps[0].cveId;
      assert Justified(ps[0], os, m);
      var j :| 0 <= j < |os| && ps[0] == MakePair(id, m[id], os[j]) && id in KnownIds(os[j].cveIds, m);
      KnownIdsSubset(os[j].cveIds, m, id);
    }
  }

  lemma {:induction false} KnownIdsSubset(ids: seq<string>, m: map<string, CveEntry>, id: string)
    requires id in KnownIds(ids, m)
    ensures id in ids
  {
    if ids != [] {
      if id in KnownIds(ids[..|ids| - 1], m) {
        KnownIdsSubset(ids[..|ids| - 1], m, id);
      }
    }
  }

  // ---------------------------------------------------------------------
  // The templates
  // ---------------------------------------------------------------------

  const PocPrefix := "Generate a Proof-of-Concept (PoC) exploit for "

  function FormatLinked(p: LinkedPair): Example {
    Example(PocPrefix + p.cveId + " affecting " + Render(p.platform) + ".",
            "Vulnerability Description: " + Render(p.cveDescription) + "\nCVSS Score: " + Render(p.cvssScore)
              + "\nExploit Type: " + Render(p.exploitType),
            p.exploitCode, "cve-exploit")
  }

  function FormatShellcode(sc: Shellcode): Example {
    Example("Generate shellcode for " + Render(sc.platform) + " " + Render(sc.shellcodeType) + ".",
            "Description: " + Render(sc.description),
            sc.content, "shellcode")
  }

  /** What `format_for_training` returns. */
  function TrainingExamples(linked: seq<LinkedPair>, shellcodes: seq<Shellcode>): seq<Example> {
    seq(|linked|, k requires 0 <= k < |linked| => FormatLinked(linked[k]))
      + seq(|shellcodes|, k requires 0 <= k < |shellcodes| => FormatShellcode(shellcodes[k]))
  }

  /**
   * One example per pair, then one per shellcode; each output is the code
   * or content verbatim, and each pair's instruction names its CVE id
   * right after the fixed prefix.
   */
  lemma TrainingExamplesShape(linked: seq<LinkedPair>, shellcodes: seq<Shellcode>)
    ensures var r := TrainingExamples(linked, shellcodes);
      && |r| == |linked| + |shellcodes|
      && (forall k :: 0 <= k < |linked| ==>
            r[k].source == "cve-exploit" && r[k].output == linked[k].exploitCode
            && OccursAt(r[k].instruction, linked[k].cveId, |PocPrefix|))
      && (forall k :: 0 <= k < |shellcodes| ==>
            r[|linked| + k].source == "shellcode" && r[|linked| + k].output == shellcodes[k].content)
  {
    var r := TrainingExamples(linked, shellcodes);
    forall k | 0 <= k < |linked|
      ensures OccursAt(r[k].instruction, linked[k].cveId, |PocPrefix|)
    {
      var id := linked[k].cveId;
      var instr := r[k].instruction;
      assert instr == PocPrefix + id + (" affecting " + Render(linked[k].platform) + ".");
      assert instr[|PocPrefix|..|PocPrefix| + |id|] == id;
    }
  }

  // ---------------------------------------------------------------------
  // The split
  // ---------------------------------------------------------------------

  /** `random.shuffle`'s draws: the `i`-th is `randbelow(i + 1)` (the one at 0 is never used). */
  predicate ValidDraws(draws: seq<int>, n: nat) {
    |draws| == n && forall i :: 1 <= i < n ==> 0 <= draws[i] <= i
  }

  /** `s` with the elements at `i` and `j` exchanged. */
  function Swap<T>(s: seq<T>, i: nat, j: nat): (r: seq<T>)
    requires i < |s| && j < |s|
    ensures |r| == |s|
  {
    s[i := s[j]][j := s[i]]
  }

  /** An exchange keeps the elements. */
  lemma SwapPermutation<T>(s: seq<T>, i: nat, j: nat)
    requires i < |s| && j < |s|
    ensures multiset(Swap(s, i, j)) == multiset(s)
  { }

  /** The list after the steps `i = k-1, ..., 1` of the shuffle, each swapping `x[i]` and `x[draws[i]]`. */
  function Shuffled<T>(s: seq<T>, draws: seq<int>, k: nat): (r: seq<T>)
    requires ValidDraws(draws, |s|) && k <= |s|
    ensures |r| == |s|
    decreases k
  {
    if k <= 1 then s else Shuffled(Swap(s, k - 1, draws[k - 1]), draws, k - 1)
  }

  /** The shuffle is a permutation. */
  lemma {:induction false} ShuffledPermutation<T>(s: seq<T>, draws: seq<int>, k: nat)
    requires ValidDraws(draws, |s|) && k <= |s|
    ensures multiset(Shuffled(s, draws, k)) == multiset(s)
    decreases k
  {
    if k > 1 {
      SwapPermutation(s, k - 1, draws[k - 1]);
      ShuffledPermutation(Swap(s, k - 1, draws[k - 1]), draws, k - 1);
    }
  }

  /** Python's `int(x)` on a float: truncation toward zero. */
  function Trunc(x: real): (r: int)
    ensures 0.0 <= x ==> r as real <= x < r as real + 1.0
    ensures x < 0.0 ==> r as real - 1.0 < x <= r as real
  {
    if x >= 0.0 then x.Floor else -((-x).Floor)
  }

  /** A slice bound as Python resolves it: negative counts from the end, then clamped to `0..n`. */
  function SliceBound(i: int, n: nat): (r: nat)
    ensures r <= n
    ensures 0 <= i <= n ==> r == i
  {
    if i < 0 then (if i + n < 0 then 0 else i + n) else if i > n then n else i
  }

  /** `s[lo:hi]` */
  function Slice<T>(s: seq<T>, lo: int, hi: int): seq<T> {
    var a := SliceBound(lo, |s|);
    var b := SliceBound(hi, |s|);
    if a >= b then [] else s[a..b]
  }

  datatype Splits<T> = Splits(train: seq<T>, validation: seq<T>, test: seq<T>)

  /**
   * `n * ratio`, taken exactly, as `n` additions of `ratio`; the verifier
   * reasons about it without multiplying two unknowns.
   */
  function Scaled(n: nat, ratio: real): real {
    if n == 0 then 0.0 else Scaled(n - 1, ratio) + ratio
  }

  /** `Scaled` is the product. */
  lemma {:induction false} ScaledIsProduct(n: nat, ratio: real)
    ensures Scaled(n, ratio) == n as real * ratio
  {
    if n > 0 {
      ScaledIsProduct(n - 1, ratio);
      assert (n - 1) as real * ratio + ratio == n as real * ratio;
    }
  }

  /** `data[:train_end]`, `data[train_end:val_end]` and `data[val_end:]`. */
  function Split<T>(data: seq<T>, trainRatio: real, valRatio: real): Splits<T> {
    var n := |data|;
    var trainEnd := Trunc(Scaled(n, trainRatio));
    var valEnd := Trunc(Scaled(n, trainRatio + valRatio));
    Splits(Slice(data, 0, trainEnd), Slice(data, trainEnd, valEnd), Slice(data, valEnd, n))
  }

  /** Scaling by non-negative ratios is non-negative and monotone, and a ratio of at most 1 stays within `n`. */
  lemma {:induction false} ScaledBounds(n: nat, trainRatio: real, valRatio: real)
    requires 0.0 <= trainRatio && 0.0 <= valRatio
    ensures 0.0 <= Scaled(n, trainRatio) <= Scaled(n, trainRatio + valRatio)
    ensures trainRatio + valRatio <= 1.0 ==> Scaled(n, trainRatio + valRatio) <= n as real
  {
    if n > 0 {
      ScaledBounds(n - 1, trainRatio, valRatio);
    }
  }

  lemma SliceConcat<T>(data: seq<T>, a: int, b: int)
    requires 0 <= a <= b
    ensures Slice(data, 0, a) + Slice(data, a, b) + Slice(data, b, |data|) == data
  {
    var a' := SliceBound(a, |data|);
    var b' := SliceBound(b, |data|);
    assert a' <= b';
    assert data[..a'] + data[a'..b'] + data[b'..] == data;
  }

  /** The two cut points of non-negative ratios are ordered. */
  lemma CutsOrdered(n: nat, trainRatio: real, valRatio: real)
    requires 0.0 <= trainRatio && 0.0 <= valRatio
    ensures 0 <= Trunc(Scaled(n, trainRatio)) <= Trunc(Scaled(n, trainRatio + valRatio))
  {
    ScaledBounds(n, trainRatio, valRatio);
    FloorMono(Scaled(n, trainRatio), Scaled(n, trainRatio + valRatio));
  }

  lemma FloorMono(x: real, y: real)
    requires 0.0 <= x <= y
    ensures 0 <= Trunc(x) == x.Floor <= Trunc(y) == y.Floor
  { }

  /** With non-negative ratios, of any size, the three slices concatenate to the data. */
  lemma SplitPartition<T>(data: seq<T>, trainRatio: real, valRatio: real)
    requires 0.0 <= trainRatio && 0.0 <= valRatio
    ensures var sp := Split(data, trainRatio, valRatio);
      sp.train + sp.validation + sp.test == data
  {
    CutsOrdered(|data|, trainRatio, valRatio);
    SliceConcat(data, Trunc(Scaled(|data|, trainRatio)), Trunc(Scaled(|data|, trainRatio + valRatio)));
  }

  /** With non-negative ratios the three slices hold exactly the data's elements. */
  lemma SplitPermutation<T>(data: seq<T>, trainRatio: real, valRatio: real)
    requires 0.0 <= trainRatio && 0.0 <= valRatio
    ensures var sp := Split(data, trainRatio, valRatio);
      multiset(sp.train + sp.validation + sp.test) == multiset(data)
  {
    SplitPartition(data, trainRatio, valRatio);
  }

  /** Ratios in `[0, 1]` summing to at most 1 cut inside the data, at the floors of the scaled ratios. */
  lemma CutsInRange(n: nat, trainRatio: real, valRatio: real)
    requires 0.0 <= trainRatio && 0.0 <= valRatio && trainRatio + valRatio <= 1.0
    ensures Trunc(Scaled(n, trainRatio)) == Scaled(n, trainRatio).Floor
    ensures Trunc(Scaled(n, trainRatio + valRatio)) == Scaled(n, trainRatio + valRatio).Floor
    ensures 0 <= Trunc(Scaled(n, trainRatio)) <= Trunc(Scaled(n, trainRatio + valRatio)) <= n
  {
    ScaledBounds(n, trainRatio, valRatio);
    FloorMono(Scaled(n, trainRatio), Scaled(n, trainRatio + valRatio));
    FloorMono(Scaled(n, trainRatio + valRatio), n as real);
  }

  /** Ratios in `[0, 1]` summing to at most 1 give slices of the floored sizes. */
  lemma SplitSizes<T>(data: seq<T>, trainRatio: real, valRatio: real)
    requires 0.0 <= trainRatio && 0.0 <= valRatio && trainRatio + valRatio <= 1.0
    ensures var sp := Split(data, trainRatio, valRatio);
      var n := |data|;
      && |sp.train| == Scaled(n, trainRatio).Floor
      && |sp.validation| == Scaled(n, trainRatio + valRatio).Floor - Scaled(n, trainRatio).Floor
      && |sp.test| == n - Scaled(n, trainRatio + valRatio).Floor
  {
    var n := |data|;
    CutsInRange(n, trainRatio, valRatio);
    SliceSizes(data, Scaled(n, trainRatio).Floor, Scaled(n, trainRatio + valRatio).Floor);
  }

  lemma SliceSizes<T>(data: seq<T>, a: int, b: int)
    requires 0 <= a <= b <= |data|
    ensures |Slice(data, 0, a)| == a && |Slice(data, a, b)| == b - a && |Slice(data, b, |data|)| == |data| - b
  { }

  /** The default ratios on a hundred examples: 80, 10 and 10. */
  lemma DefaultSplitOfHundred<T>(data: seq<T>)
    requires |data| == 100
    ensures var sp := Split(data, 0.8, 0.1);
      |sp.train| == 80 && |sp.validation| == 10 && |sp.test| == 10
  {
    SplitSizes(data, 0.8, 0.1);
    ScaledIsProduct(100, 0.8);
    ScaledIsProduct(100, 0.8 + 0.1);
    assert (100.0 * 0.8).Floor == 80;
    assert (100.0 * (0.8 + 0.1)).Floor == 90;
  }

  /**
   * The ratios are not checked: a negative training ratio makes `train_end`
   * negative, Python then counts it from the end, and the slices overlap.
   */
  lemma NegativeRatioOverlaps<T>(data: seq<T>)
    requires |data| == 100
    ensures var sp := Split(data, -0.1, 0.1);
      |sp.train| == 90 && sp.validation == [] && sp.test == data
  {
    ScaledIsProduct(100, -0.1);
    ScaledIsProduct(100, -0.1 + 0.1);
    assert 100 as real * -0.1 == -10.0;
    assert Trunc(-10.0) == -10;
    assert 100 as real * (-0.1 + 0.1) == 0.0;
  }

  /**
   * The inner `for cve_id in cve_ids` loop of both branches of `link_data`:
   * one pair appended per id found in the map.
   */
  method AppendPairs(linked: seq<LinkedPair>, o: Origin, cveIds: seq<string>, cveMap: map<string, CveEntry>)
    returns (r: seq<LinkedPair>)
    ensures r == linked + PairsFor(o, cveIds, cveMap)
  {
    r := linked;
    for j := 0 to |cveIds|
      invariant r == linked + PairsFor(o, cveIds[..j], cveMap)
    {
      PairsStep(o, cveIds, j, cveMap);
      var cveId := cveIds[j];
      if cveId in cveMap {
        r := r + [MakePair(cveId, cveMap[cveId], o)];
      }
    }
    assert cveIds[..|cveIds|] == cveIds;
  }

  /** The first loop of `link_data`: the pairs of every exploit with a non-empty `codes`. */
  method LinkExploits(exploits: seq<Exploit>, cveMap: map<string, CveEntry>) returns (linked: seq<LinkedPair>)
    ensures linked == Links(ExploitOrigins(exploits), cveMap)
  {
    ghost var eos := ExploitOrigins(exploits);
    linked := [];
    for i := 0 to |exploits|
      invariant linked == Links(eos[..i], cveMap)
    {
      var exploit := exploits[i];
      LinksStep(eos, i, cveMap);
      assert eos[i] == FromExploit(exploit, ExploitIds(exploit));
      var codes := exploit.codes;
      if codes.Some? && codes.value != "" {
        var cveIds := FindIds(codes.value);
        linked := AppendPairs(linked, FromExploit(exploit, cveIds), cveIds, cveMap);
      }
    }
    assert eos[..|exploits|] == eos;
  }

  /** The second loop of `link_data`: the pairs of every module, after those already linked. */
  method LinkModules(linked0: seq<LinkedPair>, modules: seq<Module>, cveMap: map<string, CveEntry>)
    returns (linked: seq<LinkedPair>)
    ensures linked == linked0 + Links(ModuleOrigins(modules), cveMap)
  {
    ghost var mos := ModuleOrigins(modules);
    linked := linked0;
    for i := 0 to |modules|
      invariant linked == linked0 + Links(mos[..i], cveMap)
    {
      var msfModule := modules[i];
      LinksStep(mos, i, cveMap);
      assert mos[i] == FromModule(msfModule, msfModule.cveIds);
      ghost var before := linked;
      linked := AppendPairs(linked, FromModule(msfModule, msfModule.cveIds), msfModule.cveIds, cveMap);
      assert linked == linked0 + (Links(mos[..i], cveMap) + PairsFor(mos[i], mos[i].cveIds, cveMap));
    }
    assert mos[..|modules|] == mos;
  }

  /** `DataProcessor` after `load_data`: the four loaded lists and the `linked_pairs` counter. */
  class DataProcessor {
    const cves: seq<CveEntry>
    const exploits: seq<Exploit>
    const shellcodes: seq<Shellcode>
    const metasploitModules: seq<Module>
    var linkedPairs: nat

    constructor (cves: seq<CveEntry>, exploits: seq<Exploit>, shellcodes: seq<Shellcode>, metasploitModules: seq<Module>)
      ensures this.cves == cves && this.exploits == exploits
      ensures this.shellcodes == shellcodes && this.metasploitModules == metasploitModules
      ensures linkedPairs == 0
    {
      this.cves := cves;
      this.exploits := exploits;
      this.shellcodes := shellcodes;
      this.metasploitModules := metasploitModules;
      linkedPairs := 0;
    }

    /** `link_data`: the join, with `linked_pairs` set to its length. */
    method LinkData() returns (linked: seq<LinkedPair>)
      modifies this`linkedPairs
      ensures linked == LinkedData(cves, exploits, metasploitModules)
      ensures linkedPairs == |linked|
    {
      var cveMap := BuildCveMap(cves);
      linked := LinkExploits(exploits, cveMap);
      linked := LinkModules(linked, metasploitModules, cveMap);
      linkedPairs := |linked|;
    }

    /** `format_for_training`: the pair examples, then the shellcode examples. */
    method FormatForTraining(linked: seq<LinkedPair>) returns (formatted: seq<Example>)
      ensures formatted == TrainingExamples(linked, shellcodes)
    {
      formatted := [];
      for i := 0 to |linked|
        invariant formatted == seq(i, k requires 0 <= k < i => FormatLinked(linked[k]))
      {
        var item := linked[i];
        var instruction := PocPrefix + item.cveId + " affecting " + Render(item.platform) + ".";
        var inputText := "Vulnerability Description: " + Render(item.cveDescription) + "\nCVSS Score: "
          + Render(item.cvssScore) + "\nExploit Type: " + Render(item.exploitType);
        formatted := formatted + [Example(instruction, inputText, item.exploitCode, "cve-exploit")];
      }
      ghost var pairPart := formatted;
      for i := 0 to |shellcodes|
        invariant formatted == pairPart + seq(i, k requires 0 <= k < i => FormatShellcode(shellcodes[k]))
      {
        var sc := shellcodes[i];
        var instruction := "Generate shellcode for " + Render(sc.platform) + " " + Render(sc.shellcodeType) + ".";
        var inputText := "Description: " + Render(sc.description);
        formatted := formatted + [Example(instruction, inputText, sc.content, "shellcode")];
      }
    }
  }

  /** `random.shuffle` in place, with the draws given. */
  method Shuffle<T>(x: array<T>, draws: seq<int>)
    requires ValidDraws(draws, x.Length)
    modifies x
    ensures x[..] == Shuffled(old(x[..]), draws, x.Length)
    ensures multiset(x[..]) == multiset(old(x[..]))
  {
    var k := x.Length;
    while k > 1
      invariant 0 <= k <= x.Length
      invariant Shuffled(x[..], draws, k) == Shuffled(old(x[..]), draws, x.Length)
    {
      var i := k - 1;
      var j := draws[i];
      ghost var s := x[..];
      x[i], x[j] := x[j], x[i];
      assert x[..] == Swap(s, i, j);
      k := k - 1;
    }
    ShuffledPermutation(old(x[..]), draws, x.Length);
  }

  /**
   * `split_and_save` up to the writes: the data is shuffled in place and
   * cut into the three slices, which together hold the input's examples.
   */
  method SplitAndSave(data: array<Example>, draws: seq<int>, trainRatio: real, valRatio: real)
    returns (sp: Splits<Example>)
    requires ValidDraws(draws, data.Length)
    modifies data
    ensures data[..] == Shuffled(old(data[..]), draws, data.Length)
    ensures sp == Split(data[..], trainRatio, valRatio)
    ensures 0.0 <= trainRatio && 0.0 <= valRatio ==>
      multiset(sp.train + sp.validation + sp.test) == multiset(old(data[..]))
  {
    Shuffle(data, draws);
    var shuffled := data[..];
    sp := Split(shuffled, trainRatio, valRatio);
    if 0.0 <= trainRatio && 0.0 <= valRatio {
      SplitPermutation(shuffled, trainRatio, valRatio);
    }
  }
}
