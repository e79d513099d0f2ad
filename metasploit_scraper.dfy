/**
 * The Metasploit side of the pipeline: the marker scanners that pull a
 * module's name, description, CVE references and platform out of its Ruby
 * source text, and the loop over the module files with its limit.
 */
module MetasploitScraper {
  import opened Wrappers
  import opened Text
  import opened Limits

  // ---------------------------------------------------------------------
  // The three field markers: '<Key>'\s*=>\s*<open>(.+?)<close>
  // ---------------------------------------------------------------------

  /** A run of regex atoms, each matching one character of its set. */
  type CharClasses = seq<set<char>>

  predicate ClassesAt(s: string, cs: CharClasses, i: int) {
    0 <= i && i + |cs| <= |s| && forall k :: 0 <= k < |cs| ==> s[i + k] in cs[k]
  }

  /** `'<key>'\s*=>\s*<open>(.+?)<close>`, searched with `re.search`. */
  datatype FieldPattern = FieldPattern(key: string, open: CharClasses, close: CharClasses, dotAll: bool)

  const Quotes: set<char> := {'\'', '"'}

  /** `'Name'\s*=>\s*['\"](.+?)['\"]` */
  const NamePattern := FieldPattern("'Name'", [Quotes], [Quotes], false)

  /** `'Description'\s*=>\s*%q\{(.+?)\}` under `re.DOTALL` */
  const DescriptionPattern := FieldPattern("'Description'", [{'%'}, {'q'}, {'{'}], [{'}'}], true)

  /** `'Platform'\s*=>\s*\['(.+?)'\]` */
  const PlatformPattern := FieldPattern("'Platform'", [{'['}, {'\''}], [{'\''}, {']'}], false)

  /** The opener and closer are not empty and the opener does not start with whitespace. */
  predicate WellFormed(p: FieldPattern) {
    |p.open| > 0 && |p.close| > 0 && forall ch :: ch in p.open[0] ==> !IsSpace(ch)
  }

  /** `.` matches any character but a newline, and a newline too under `re.DOTALL`. */
  predicate BodyChars(p: FieldPattern, t: string) {
    p.dotAll || NoNewline(t)
  }

  /** The key, `=>` and the opener at `i`, with the whitespace runs ending at `b` and `c`. */
  predicate Opens(s: string, p: FieldPattern, i: int, b: int, c: int) {
    && OccursAt(s, p.key, i)
    && i + |p.key| <= b <= |s| && AllSpace(s[i + |p.key|..b])
    && OccursAt(s, "=>", b)
    && b + 2 <= c <= |s| && AllSpace(s[b + 2..c])
    && ClassesAt(s, p.open, c)
  }

  /**
   * The pattern matches at `i` with its whitespace runs ending at `b` and
   * `c` and its group spanning `d..e`: any such split, lazy or not.
   */
  predicate Matches(s: string, p: FieldPattern, i: int, b: int, c: int, d: int, e: int) {
    && Opens(s, p, i, b, c) && d == c + |p.open|
    && d < e <= |s| && BodyChars(p, s[d..e])
    && ClassesAt(s, p.close, e)
  }

  /** The lazy `(.+?)`: the first end `e` after `d` at which the closer follows. */
  function LazyEnd(s: string, p: FieldPattern, d: nat, e: nat): (r: Option<nat>)
    requires d < e
    ensures r.Some? ==> e <= r.value <= |s|
    decreases |s| + 1 - e
  {
    if e > |s| then None
    else if !p.dotAll && s[e - 1] == '\n' then None
    else if ClassesAt(s, p.close, e) then Some(e)
    else LazyEnd(s, p, d, e + 1)
  }

  /** What `LazyEnd` finds is an end the body reaches, with the closer there and at no earlier end. */
  lemma {:induction false} LazyEndFound(s: string, p: FieldPattern, d: nat, e: nat)
    requires d < e <= |s| + 1
    requires BodyChars(p, s[d..e - 1])
    requires forall j :: d < j < e ==> !ClassesAt(s, p.close, j)
    decreases |s| + 1 - e
    ensures var r := LazyEnd(s, p, d, e);
      r.Some? ==> e <= r.value <= |s| && BodyChars(p, s[d..r.value]) && ClassesAt(s, p.close, r.value)
                  && forall j :: d < j < r.value ==> !ClassesAt(s, p.close, j)
  {
    if e <= |s| && (p.dotAll || s[e - 1] != '\n') {
      assert BodyChars(p, s[d..e]) by {
        if !p.dotAll {
          assert s[d..e] == s[d..e - 1] + [s[e - 1]];
        }
      }
      if !ClassesAt(s, p.close, e) {
        LazyEndFound(s, p, d, e + 1);
      }
    }
  }

  /** Any end the body reaches with the closer after it bounds what `LazyEnd` finds: it finds one no later. */
  lemma {:induction false} LazyEndWithin(s: string, p: FieldPattern, d: nat, e: nat, x: nat)
    requires d < e <= x <= |s|
    requires BodyChars(p, s[d..x]) && ClassesAt(s, p.close, x)
    decreases x - e
    ensures LazyEnd(s, p, d, e).Some? && LazyEnd(s, p, d, e).value <= x
  {
    if !p.dotAll {
      assert s[e - 1] == s[d..x][e - 1 - d];
    }
    if !ClassesAt(s, p.close, e) {
      LazyEndWithin(s, p, d, e + 1, x);
    }
  }

  /**
   * The text up to the opener at `i`, if it is there: the ends of the two
   * whitespace runs, each as long as it can be.
   */
  function OpenAt(s: string, p: FieldPattern, i: nat): (r: Option<(nat, nat)>)
    ensures r.Some? ==> Opens(s, p, i, r.value.0, r.value.1)
  {
    if !OccursAt(s, p.key, i) then None
    else
      var b := SpaceEnd(s, i + |p.key|);
      if !OccursAt(s, "=>", b) then None
      else
        var c := SpaceEnd(s, b + 2);
        if !ClassesAt(s, p.open, c) then None
        else Some((b, c))
  }

  /** The match of `p` at `i`, as the span of its group. */
  function MatchAt(s: string, p: FieldPattern, i: nat): (r: Option<(nat, nat)>)
    ensures r.Some? ==> r.value.0 < r.value.1 <= |s|
  {
    var o := OpenAt(s, p, i);
    if o.None? then None
    else
      var d := o.value.1 + |p.open|;
      var e := LazyEnd(s, p, d, d + 1);
      if e.None? then None else Some((d, e.value))
  }

  /** The whitespace runs of a match are maximal, so a match at `i` has only one split before its group. */
  lemma MatchesPinned(s: string, p: FieldPattern, i: int, b: int, c: int, d: int, e: int)
    requires WellFormed(p) && Matches(s, p, i, b, c, d, e)
    ensures OpenAt(s, p, i) == Some((b, c)) && d == c + |p.open|
  {
    assert Opens(s, p, i, b, c);
    assert s[b] == s[b..b + 2][0] == '=';
    SpaceEndUnique(s, i + |p.key|, b);
    assert s[c + 0] in p.open[0];
    SpaceEndUnique(s, b + 2, c);
    OpenAtFound(s, p, i, b, c);
  }

  /** With the key, `=>` and the opener where the maximal whitespace runs put them, `OpenAt` finds them. */
  lemma OpenAtFound(s: string, p: FieldPattern, i: nat, b: nat, c: nat)
    requires OccursAt(s, p.key, i) && i + |p.key| <= b <= |s| && b == SpaceEnd(s, i + |p.key|)
    requires OccursAt(s, "=>", b) && c == SpaceEnd(s, b + 2) && ClassesAt(s, p.open, c)
    ensures OpenAt(s, p, i) == Some((b, c))
  {
  }

  /**
   * `MatchAt` misses no match at `i`, and the one it finds is the one the
   * lazy group makes: the shortest.
   */
  lemma MatchAtSpec(s: string, p: FieldPattern, i: nat)
    requires WellFormed(p)
    ensures var r := MatchAt(s, p, i);
      && (r.Some? ==> forall b, c, d, e :: Matches(s, p, i, b, c, d, e) ==> d == r.value.0 && r.value.1 <= e)
      && (r.None? ==> forall b, c, d, e :: !Matches(s, p, i, b, c, d, e))
  {
    forall b, c, d, e | Matches(s, p, i, b, c, d, e)
      ensures MatchAt(s, p, i).Some? && d == MatchAt(s, p, i).value.0 && MatchAt(s, p, i).value.1 <= e
    {
      MatchAtMinimal(s, p, i, b, c, d, e);
    }
  }

  lemma MatchAtMinimal(s: string, p: FieldPattern, i: nat, b: int, c: int, d: int, e: int)
    requires WellFormed(p) && Matches(s, p, i, b, c, d, e)
    ensures MatchAt(s, p, i).Some? && d == MatchAt(s, p, i).value.0 && MatchAt(s, p, i).value.1 <= e
  {
    MatchesPinned(s, p, i, b, c, d, e);
    LazyEndWithin(s, p, d, d + 1, e);
    MatchAtOfOpen(s, p, i, d);
  }

  /** Once the opener is there, the match is the lazy body's end after it. */
  lemma MatchAtOfOpen(s: string, p: FieldPattern, i: nat, d: nat)
    requires OpenAt(s, p, i).Some? && d == OpenAt(s, p, i).value.1 + |p.open| && LazyEnd(s, p, d, d + 1).Some?
    ensures MatchAt(s, p, i) == Some((d, LazyEnd(s, p, d, d + 1).value))
  {
  }

  /** The group of a match at `i` starts where the opener ends and ends where the lazy body stops. */
  lemma MatchAtParts(s: string, p: FieldPattern, i: nat)
    requires MatchAt(s, p, i).Some?
    ensures OpenAt(s, p, i).Some?
    ensures var d := OpenAt(s, p, i).value.1 + |p.open|;
      MatchAt(s, p, i).value.0 == d && LazyEnd(s, p, d, d + 1) == Some(MatchAt(s, p, i).value.1)
  {
  }

  /** The opener followed by the lazy body's end is a match. */
  lemma MatchFromParts(s: string, p: FieldPattern, i: int, b: int, c: int, d: nat, e: nat)
    requires Opens(s, p, i, b, c) && d == c + |p.open| && LazyEnd(s, p, d, d + 1) == Some(e)
    ensures Matches(s, p, i, b, c, d, e)
  {
    assert s[d..d] == [];
    LazyEndFound(s, p, d, d + 1);
  }

  /** What `MatchAt` finds is a match. */
  lemma MatchAtSound(s: string, p: FieldPattern, i: nat)
    requires MatchAt(s, p, i).Some?
    ensures OpenAt(s, p, i).Some?
    ensures var r := MatchAt(s, p, i).value;
      var o := OpenAt(s, p, i).value;
      Matches(s, p, i, o.0, o.1, r.0, r.1)
  {
    MatchAtParts(s, p, i);
    var o := OpenAt(s, p, i).value;
    MatchFromParts(s, p, i, o.0, o.1, o.1 + |p.open|, MatchAt(s, p, i).value.1);
  }

  /** `re.search`: the first position at or after `from` where `p` matches. */
  function FirstMatch(s: string, p: FieldPattern, from: nat): (r: Option<nat>)
    ensures r.Some? ==> from <= r.value <= |s| && MatchAt(s, p, r.value).Some?
    ensures r.Some? ==> forall j :: from <= j < r.value ==> MatchAt(s, p, j).None?
    ensures r.None? ==> forall j :: from <= j <= |s| ==> MatchAt(s, p, j).None?
    decreases |s| + 1 - from
  {
    if from > |s| then None
    else if MatchAt(s, p, from).Some? then Some(from)
    else FirstMatch(s, p, from + 1)
  }

  /** The span of the group of `re.search(p, s)`. */
  function SearchSpan(s: string, p: FieldPattern): (r: Option<(nat, nat)>)
    ensures r.Some? ==> r.value.0 < r.value.1 <= |s|
  {
    match FirstMatch(s, p, 0)
    case None => None
    case Some(i) => MatchAt(s, p, i)
  }

  /** `m.group(1) if m else None` for `m = re.search(p, s)`. */
  function Search(s: string, p: FieldPattern): Option<string> {
    match SearchSpan(s, p)
    case None => None
    case Some(span) => Some(s[span.0..span.1])
  }

  /**
   * `re.search` semantics: `Search` yields the group of the leftmost
   * match, the shortest one there; it yields nothing exactly when the
   * pattern occurs nowhere.
   */
  lemma SearchSpec(s: string, p: FieldPattern)
    requires WellFormed(p)
    ensures Search(s, p).Some? ==>
      exists i, b, c, d, e :: Matches(s, p, i, b, c, d, e) && Search(s, p).value == s[d..e]
        && forall i', b', c', d', e' :: Matches(s, p, i', b', c', d', e') ==>
             i <= i' && (i' == i ==> d' == d && e <= e')
    ensures Search(s, p).None? <==> forall i, b, c, d, e :: !Matches(s, p, i, b, c, d, e)
  {
    var f := FirstMatch(s, p, 0);
    forall i: nat, b, c, d, e | Matches(s, p, i, b, c, d, e) ensures f.Some? && f.value <= i {
      MatchAtSpec(s, p, i);
    }
    if f.Some? {
      var i := f.value;
      MatchAtSpec(s, p, i);
      var span := MatchAt(s, p, i).value;
      MatchAtSound(s, p, i);
      var o := OpenAt(s, p, i).value;
      assert Matches(s, p, i, o.0, o.1, span.0, span.1);
      assert Search(s, p) == Some(s[span.0..span.1]);
      forall i', b', c', d', e' | Matches(s, p, i', b', c', d', e')
        ensures i <= i' && (i' == i ==> d' == span.0 && span.1 <= e')
      {
        assert OccursAt(s, p.key, i');
      }
    }
  }

  // ---------------------------------------------------------------------
  // The CVE references: findall of 'CVE',\s*'(\d{4}-\d+)'
  // ---------------------------------------------------------------------

  const CveKey := "'CVE',"

  /** The shape of a capture: four digits, a hyphen, one or more digits. */
  predicate CveNumber(t: string) {
    |t| >= 6 && AllDigits(t[..4]) && t[4] == '-' && AllDigits(t[5..])
  }

  /** A match at the start of `s`, as the span of its group. */
  function CveMatch(s: string): (r: Option<(nat, nat)>)
    ensures r.Some? ==> 7 <= r.value.0 < r.value.1 < |s|
  {
    if !StartsWith(s, CveKey) then None
    else
      var q := SpaceEnd(s, |CveKey|);
      if q >= |s| || s[q] != '\'' then None
      else
        var d := q + 1;
        if d + 5 > |s| || !AllDigits(s[d..d + 4]) || s[d + 4] != '-' then None
        else
          var e := DigitEnd(s, d + 5);
          if e == d + 5 || e >= |s| || s[e] != '\'' then None
          else Some((d, e))
  }

  /**
   * `re.findall`: the groups of the successive non-overlapping matches,
   * scanning on after the end of each match.
   */
  function FindAll(s: string): seq<string>
    decreases |s|
  {
    if s == [] then []
    else
      match CveMatch(s)
      case Some((d, e)) => [s[d..e]] + FindAll(s[e + 1..])
      case None => FindAll(s[1..])
  }

  lemma CveMatchShape(s: string)
    ensures var r := CveMatch(s);
      r.Some? ==> CveNumber(s[r.value.0..r.value.1]) && s[r.value.0 - 1] == '\'' && s[r.value.1] == '\''
  {
    var r := CveMatch(s);
    if r.Some? {
      var d, e := r.value.0, r.value.1;
      var t := s[d..e];
      assert t[..4] == s[d..d + 4];
      assert t[5..] == s[d + 5..e];
    }
  }

  /** Every capture is a bare `YYYY-N…` number. */
  lemma {:induction false} FindAllShape(s: string)
    decreases |s|
    ensures forall k :: 0 <= k < |FindAll(s)| ==> CveNumber(FindAll(s)[k])
  {
    if s != [] {
      CveMatchShape(s);
      match CveMatch(s)
      case Some((d, e)) => FindAllShape(s[e + 1..]);
      case None => FindAllShape(s[1..]);
    }
  }

  /**
   * The captures never carry the `CVE-` prefix that NVD identifiers have,
   * so none equals an NVD id such as `CVE-2021-1234`.
   */
  lemma NoCapturedCvePrefix(s: string)
    ensures forall k :: 0 <= k < |FindAll(s)| ==> !StartsWith(FindAll(s)[k], "CVE-")
  {
    FindAllShape(s);
    forall k | 0 <= k < |FindAll(s)| ensures !StartsWith(FindAll(s)[k], "CVE-") {
      var t := FindAll(s)[k];
      assert IsDigit(t[..4][0]);
    }
  }

  /** One entry of a module's `References` list, `['CVE', '<number>'],`. */
  function CveReference(number: string): string {
    "['CVE', '" + number + "'],"
  }

  /** The entries for the given numbers, one after the other. */
  function CveReferences(numbers: seq<string>): string {
    if numbers == [] then "" else CveReference(numbers[0]) + CveReferences(numbers[1..])
  }

  lemma FindAllMatch(s: string, d: nat, e: nat)
    requires CveMatch(s) == Some((d, e))
    ensures FindAll(s) == [s[d..e]] + FindAll(s[e + 1..])
  {
  }

  lemma FindAllSkip(s: string)
    requires s != [] && !StartsWith(s, CveKey)
    ensures FindAll(s) == FindAll(s[1..])
  {
  }

  /** A match starts at `p` in `s`, and `t` is its group. */
  predicate CaptureAt(s: string, p: int, t: string) {
    && 0 <= p < |s| && CveMatch(s[p..]).Some?
    && t == s[p..][CveMatch(s[p..]).value.0..CveMatch(s[p..]).value.1]
  }

  /** `t` is the group of a match starting somewhere in `s`. */
  ghost predicate Captured(s: string, t: string) {
    exists p :: CaptureAt(s, p, t)
  }

  /** Positions before `p` start no match, so the scan passes over them. */
  lemma {:induction false} FindAllSkipTo(s: string, p: nat)
    requires p <= |s|
    requires forall j :: 0 <= j < p ==> CveMatch(s[j..]).None?
    decreases p
    ensures FindAll(s) == FindAll(s[p..])
  {
    if p > 0 {
      assert s[0..] == s;
      assert FindAll(s) == FindAll(s[1..]);
      forall j | 0 <= j < p - 1 ensures CveMatch(s[1..][j..]).None? {
        assert s[1..][j..] == s[j + 1..];
      }
      FindAllSkipTo(s[1..], p - 1);
      assert s[1..][p - 1..] == s[p..];
    }
  }

  /**
   * The first capture is the group of the leftmost match, and the scan
   * resumes just after that match's closing quote.
   */
  lemma FindAllLeftmost(s: string, p: nat)
    requires p < |s| && CveMatch(s[p..]).Some?
    requires forall j :: 0 <= j < p ==> CveMatch(s[j..]).None?
    ensures var t := s[p..];
      var m := CveMatch(t).value;
      FindAll(s) == [t[m.0..m.1]] + FindAll(t[m.1 + 1..])
  {
    FindAllSkipTo(s, p);
  }

  /** A text where no match starts anywhere yields no capture. */
  lemma FindAllNone(s: string)
    requires forall j :: 0 <= j < |s| ==> CveMatch(s[j..]).None?
    ensures FindAll(s) == []
  {
    FindAllSkipTo(s, |s|);
  }

  /** A capture in a suffix is a capture in the whole text. */
  lemma CaptureShift(s: string, n: nat, p: int, t: string)
    requires n <= |s| && CaptureAt(s[n..], p, t)
    ensures CaptureAt(s, n + p, t)
  {
    assert s[n..][p..] == s[n + p..];
  }

  /** Every capture is the group of a match that starts somewhere in the text. */
  lemma {:induction false} FindAllOccur(s: string)
    decreases |s|
    ensures forall k :: 0 <= k < |FindAll(s)| ==> Captured(s, FindAll(s)[k])
  {
    if s != [] {
      assert s[0..] == s;
      var m := CveMatch(s);
      var n := if m.Some? then m.value.1 + 1 else 1;
      var head := if m.Some? then [s[m.value.0..m.value.1]] else [];
      assert FindAll(s) == head + FindAll(s[n..]);
      assert head != [] ==> CaptureAt(s, 0, head[0]);
      FindAllOccur(s[n..]);
      OccurStep(s, n, head, FindAll(s[n..]));
    }
  }

  /** The step of `FindAllOccur`: a capture at the start, if any, then the captures of a suffix. */
  lemma OccurStep(s: string, n: nat, head: seq<string>, caps: seq<string>)
    requires n <= |s| && |head| <= 1 && (head != [] ==> CaptureAt(s, 0, head[0]))
    requires forall k :: 0 <= k < |caps| ==> Captured(s[n..], caps[k])
    ensures forall k :: 0 <= k < |head + caps| ==> Captured(s, (head + caps)[k])
  {
    forall k | 0 <= k < |head + caps| ensures Captured(s, (head + caps)[k]) {
      if k < |head| {
        assert (head + caps)[k] == head[0];
        assert CaptureAt(s, 0, (head + caps)[k]);
      } else {
        var t := caps[k - |head|];
        assert (head + caps)[k] == t;
        var p' :| CaptureAt(s[n..], p', t);
        CaptureShift(s, n, p', t);
        assert CaptureAt(s, n + p', (head + caps)[k]);
      }
    }
  }

  /** The four parts of `a + m + b + rest`, read back by position. */
  lemma ConcatParts(a: string, m: string, b: string, rest: string)
    ensures var t := a + m + b + rest;
      && t[..|a|] == a && t[|a|..|a| + |m|] == m
      && t[|a| + |m|..|a| + |m| + |b|] == b && t[|a| + |m| + |b|..] == rest
  {
    var t := a + m + b + rest;
    assert t == a + (m + (b + rest));
  }

  /** The match inside one entry: the group is the number. */
  lemma CveEntryMatch(number: string, rest: string)
    requires CveNumber(number)
    ensures var t := "'CVE', '" + number + "']," + rest;
      FindAll(t) == [number] + FindAll("]," + rest)
  {
    var t := "'CVE', '" + number + "']," + rest;
    var n := |number|;
    EntryLayout(number, rest);
    CveMatchAtEntry(t, n);
    FindAllMatch(t, 8, 8 + n);
  }

  /** Where the parts of one entry sit. */
  lemma EntryLayout(number: string, rest: string)
    requires CveNumber(number)
    ensures var t := "'CVE', '" + number + "']," + rest;
      var n := |number|;
      && |t| > 8 + n && StartsWith(t, CveKey) && t[6] == ' ' && t[7] == '\''
      && AllDigits(t[8..12]) && t[12] == '-' && AllDigits(t[13..8 + n]) && t[8 + n] == '\''
      && t[8..8 + n] == number && t[9 + n..] == "]," + rest
  {
    var head := "'CVE', '";
    var t := head + number + "']," + rest;
    var n := |number|;
    ConcatParts(head, number, "'],", rest);
    assert t[..8] == head;
    assert t[..6] == head[..6] == CveKey;
    assert t[6] == head[6] && t[7] == head[7];
    assert t[8..12] == number[..4] && t[12] == number[4];
    assert t[13..8 + n] == number[5..];
    assert t[8 + n..8 + n + 3] == "'],";
    assert t[8 + n] == t[8 + n..8 + n + 3][0];
    assert t[9 + n..] == t[8 + n..][1..] == ("']," + rest)[1..];
  }

  /** A text laid out as an entry with an `n`-character number matches at its start, the group spanning the number. */
  lemma CveMatchAtEntry(t: string, n: nat)
    requires n >= 6 && |t| > 8 + n && StartsWith(t, CveKey) && t[6] == ' ' && t[7] == '\''
    requires AllDigits(t[8..12]) && t[12] == '-' && AllDigits(t[13..8 + n]) && t[8 + n] == '\''
    ensures CveMatch(t) == Some((8, 8 + n))
  {
    assert t[6..7] == [t[6]];
    SpaceEndUnique(t, 6, 7);
    DigitEndUnique(t, 13, 8 + n);
  }

  /** No match starts at a character other than the opening quote of `'CVE',`. */
  lemma NoKeyAt(t: string)
    requires |t| > 0 && t[0] != '\''
    ensures !StartsWith(t, CveKey)
  {
    if |t| >= |CveKey| {
      assert t[..|CveKey|][0] == t[0];
    }
  }

  /** A character other than a quote in front of the text adds no match. */
  lemma SkipChar(ch: char, t: string)
    requires ch != '\''
    ensures FindAll([ch] + t) == FindAll(t)
  {
    var u := [ch] + t;
    assert u[0] == ch;
    NoKeyAt(u);
    FindAllSkip(u);
    assert u[1..] == t;
  }

  /** The `],` closing an entry holds no match. */
  lemma SeparatorSkipped(rest: string)
    ensures FindAll("]," + rest) == FindAll(rest)
  {
    SkipChar(',', rest);
    assert "]," + rest == [']'] + ([','] + rest);
    SkipChar(']', [','] + rest);
  }

  lemma CveReferenceFound(number: string, rest: string)
    requires CveNumber(number)
    ensures FindAll(CveReference(number) + rest) == [number] + FindAll(rest)
  {
    var t := "'CVE', '" + number + "']," + rest;
    assert CveReference(number) + rest == ['['] + t;
    SkipChar('[', t);
    CveEntryMatch(number, rest);
    SeparatorSkipped(rest);
  }

  /**
   * Round trip: a `References` list written out from CVE numbers yields
   * exactly those numbers, in order and with duplicates kept.
   */
  lemma {:induction false} FindAllOfReferences(numbers: seq<string>)
    requires forall k :: 0 <= k < |numbers| ==> CveNumber(numbers[k])
    ensures FindAll(CveReferences(numbers)) == numbers
  {
    if numbers != [] {
      CveReferenceFound(numbers[0], CveReferences(numbers[1..]));
      FindAllOfReferences(numbers[1..]);
    }
  }

  // ---------------------------------------------------------------------
  // The shape of each field
  // ---------------------------------------------------------------------

  /**
   * The group of a marker holds no closer after its first character: the
   * lazy group stops at the first closer. A closer may only open it.
   */
  lemma LazyGroup(s: string, p: FieldPattern)
    requires SearchSpan(s, p).Some?
    ensures var r := SearchSpan(s, p).value;
      BodyChars(p, s[r.0..r.1]) && ClassesAt(s, p.close, r.1)
      && forall j :: r.0 < j < r.1 ==> !ClassesAt(s, p.close, j)
  {
    var i := FirstMatch(s, p, 0).value;
    assert SearchSpan(s, p) == MatchAt(s, p, i);
    LazyMatch(s, p, i);
  }

  /** The group of a match at `i` holds no closer after its first character. */
  lemma LazyMatch(s: string, p: FieldPattern, i: nat)
    requires MatchAt(s, p, i).Some?
    ensures var r := MatchAt(s, p, i).value;
      BodyChars(p, s[r.0..r.1]) && ClassesAt(s, p.close, r.1)
      && forall j :: r.0 < j < r.1 ==> !ClassesAt(s, p.close, j)
  {
    MatchAtParts(s, p, i);
    var d := OpenAt(s, p, i).value.1 + |p.open|;
    assert s[d..d] == [];
    LazyEndFound(s, p, d, d + 1);
  }

  /** A one-character closer: no character of its set after the group's first. */
  lemma NoSingleCloser(s: string, cs: set<char>, close: CharClasses, d: nat, e: nat)
    requires close == [cs] && d < e <= |s|
    requires forall j :: d < j < e ==> !ClassesAt(s, close, j)
    ensures forall k :: 1 <= k < e - d ==> s[d..e][k] !in cs
  {
    forall k | 1 <= k < e - d ensures s[d..e][k] !in cs {
      assert s[d..e][k] == s[d + k + 0];
      assert !ClassesAt(s, close, d + k);
    }
  }

  /** A two-character closer: no pair of its sets after the group's first character. */
  lemma NoPairCloser(s: string, a: set<char>, b: set<char>, close: CharClasses, d: nat, e: nat)
    requires close == [a, b] && d < e <= |s|
    requires forall j :: d < j < e ==> !ClassesAt(s, close, j)
    ensures forall k :: 1 <= k < e - d - 1 ==> !(s[d..e][k] in a && s[d..e][k + 1] in b)
  {
    forall k | 1 <= k < e - d - 1 ensures !(s[d..e][k] in a && s[d..e][k + 1] in b) {
      assert s[d..e][k] == s[d + k] && s[d..e][k + 1] == s[d + k + 1];
      ClassesAtTwo(s, close, d + k);
      assert !ClassesAt(s, close, d + k);
    }
  }

  /** `name`: at least one character on one line, with no quote after its first character. */
  lemma NameShape(s: string)
    requires Search(s, NamePattern).Some?
    ensures var t := Search(s, NamePattern).value;
      |t| >= 1 && NoNewline(t) && forall k :: 1 <= k < |t| ==> t[k] !in Quotes
  {
    LazyGroup(s, NamePattern);
    var r := SearchSpan(s, NamePattern).value;
    assert Search(s, NamePattern).value == s[r.0..r.1];
    NoSingleCloser(s, Quotes, NamePattern.close, r.0, r.1);
  }

  /** The raw `description` group: it may span lines, and holds no `}` after its first character. */
  lemma DescriptionShape(s: string)
    requires Search(s, DescriptionPattern).Some?
    ensures var t := Search(s, DescriptionPattern).value;
      |t| >= 1 && forall k :: 1 <= k < |t| ==> t[k] != '}'
  {
    LazyGroup(s, DescriptionPattern);
    var r := SearchSpan(s, DescriptionPattern).value;
    assert Search(s, DescriptionPattern).value == s[r.0..r.1];
    NoSingleCloser(s, {'}'}, DescriptionPattern.close, r.0, r.1);
  }

  /**
   * `platform`: one line of text up to the first `']`, which for a list of
   * several platforms takes in the separators (`linux', 'unix`).
   */
  lemma PlatformShape(s: string)
    requires Search(s, PlatformPattern).Some?
    ensures var t := Search(s, PlatformPattern).value;
      |t| >= 1 && NoNewline(t) && forall k :: 1 <= k < |t| - 1 ==> !(t[k] == '\'' && t[k + 1] == ']')
  {
    LazyGroup(s, PlatformPattern);
    var r := SearchSpan(s, PlatformPattern).value;
    assert Search(s, PlatformPattern).value == s[r.0..r.1];
    NoPairCloser(s, {'\''}, {']'}, PlatformPattern.close, r.0, r.1);
  }

  /** The lazy group reaches the first closer `x` when nothing stops it before. */
  lemma {:induction false} LazyEndReaches(s: string, p: FieldPattern, d: nat, e: nat, x: nat)
    requires d < e <= x <= |s|
    requires forall j :: e <= j < x ==> !ClassesAt(s, p.close, j)
    requires forall k :: e - 1 <= k < x ==> p.dotAll || s[k] != '\n'
    requires ClassesAt(s, p.close, x)
    decreases x - e
    ensures LazyEnd(s, p, d, e) == Some(x)
  {
    if e < x {
      LazyEndReaches(s, p, d, e + 1, x);
    }
  }

  /** A platform name as Metasploit writes one: no quote, bracket or newline in it. */
  predicate PlainName(a: string) {
    |a| >= 1 && forall k :: 0 <= k < |a| ==> a[k] != '\'' && a[k] != ']' && a[k] != '\n'
  }

  /** No `']` inside `g` and no newline: the platform group runs to its end. */
  predicate OpenPlatformText(g: string) {
    NoNewline(g) && forall k :: 0 <= k < |g| - 1 ==> !(g[k] == '\'' && g[k + 1] == ']')
  }

  lemma ClassesAtTwo(s: string, cs: CharClasses, j: int)
    requires |cs| == 2 && 0 <= j && j + 2 <= |s|
    ensures ClassesAt(s, cs, j) <==> s[j] in cs[0] && s[j + 1] in cs[1]
  {
    assert s[j + 0] == s[j];
  }

  /** Where the parts of `'Platform' => ['<g>']<rest>` sit. */
  lemma PlatformLayout(g: string, rest: string)
    ensures var s := "'Platform' => ['" + g + "']" + rest;
      var n := |g|;
      && |s| >= 18 + |g| && s[..16] == "'Platform' => ['" && s[16..16 + n] == g
      && s[16 + n] == '\'' && s[17 + n] == ']'
  {
    var head := "'Platform' => ['";
    var s := head + g + "']" + rest;
    var n := |g|;
    ConcatParts(head, g, "']", rest);
    assert s[16 + n] == s[16 + n..18 + n][0];
    assert s[17 + n] == s[16 + n..18 + n][1];
  }

  /** `'Platform' => ['` at the start of a text is the opener of a match there. */
  lemma PlatformOpener(s: string)
    requires |s| >= 16 && s[..16] == "'Platform' => ['"
    ensures OpenAt(s, PlatformPattern, 0) == Some((11, 14))
  {
    var p := PlatformPattern;
    assert s[..10] == s[..16][..10] == "'Platform'";
    assert s[10] == s[..16][10] == ' ' && s[13] == s[..16][13] == ' ';
    assert s[11..13] == s[..16][11..13] == "=>";
    assert s[14] == s[..16][14] == '[' && s[15] == s[..16][15] == '\'';
    assert OccursAt(s, p.key, 0);
    SpaceEndUnique(s, 10, 11);
    SpaceEndUnique(s, 13, 14);
    assert ClassesAt(s, p.open, 14);
    OpenAtFound(s, p, 0, 11, 14);
  }

  /** A group text with no `']` and no newline, closed by `'`, has no closer inside it. */
  lemma PlatformBodyOpen(s: string, n: nat)
    requires |s| >= 18 + n && OpenPlatformText(s[16..16 + n]) && s[16 + n] == '\''
    ensures forall j :: 17 <= j < 16 + n ==> !ClassesAt(s, PlatformPattern.close, j)
    ensures forall k :: 16 <= k < 16 + n ==> s[k] != '\n'
  {
    var g := s[16..16 + n];
    forall j | 17 <= j < 16 + n ensures !ClassesAt(s, PlatformPattern.close, j) {
      ClassesAtTwo(s, PlatformPattern.close, j);
      if j + 1 < 16 + n {
        assert s[j] == g[j - 16] && s[j + 1] == g[j - 16 + 1];
      } else {
        assert s[j + 1] == '\'';
      }
    }
    forall k | 16 <= k < 16 + n ensures s[k] != '\n' {
      assert s[k] == g[k - 16];
    }
  }

  /** A text laid out as a platform entry with an `n`-character group matches at its start. */
  lemma PlatformMatchAt(s: string, n: nat)
    requires n >= 1 && |s| >= 18 + n && s[..16] == "'Platform' => ['"
    requires OpenPlatformText(s[16..16 + n]) && s[16 + n] == '\'' && s[17 + n] == ']'
    ensures MatchAt(s, PlatformPattern, 0) == Some((16, 16 + n))
  {
    var p := PlatformPattern;
    PlatformOpener(s);
    PlatformBodyOpen(s, n);
    ClassesAtTwo(s, p.close, 16 + n);
    LazyEndReaches(s, p, 16, 17, 16 + n);
    MatchAtOfOpen(s, p, 0, 16);
  }

  /** `'Platform' => ['<g>']` gives `g` when `g` holds no `']`. */
  lemma PlatformGroup(g: string, rest: string)
    requires |g| >= 1 && OpenPlatformText(g)
    ensures Search("'Platform' => ['" + g + "']" + rest, PlatformPattern) == Some(g)
  {
    var s := "'Platform' => ['" + g + "']" + rest;
    PlatformLayout(g, rest);
    PlatformMatchAt(s, |g|);
    assert FirstMatch(s, PlatformPattern, 0) == Some(0);
  }

  /**
   * A module listing two platforms gets both as one `platform` string,
   * joined by the list's own `', '` separator.
   */
  lemma PlatformListQuirk(a: string, b: string, rest: string)
    requires PlainName(a) && PlainName(b)
    ensures Search("'Platform' => ['" + a + "', '" + b + "']" + rest, PlatformPattern) == Some(a + "', '" + b)
  {
    var g := a + "', '" + b;
    assert "'Platform' => ['" + a + "', '" + b + "']" + rest == "'Platform' => ['" + g + "']" + rest;
    forall k | 0 <= k < |g| ensures g[k] != '\n' && (g[k] == '\'' ==> k == |a| || k == |a| + 3) {
      if k < |a| {
        assert g[k] == a[k];
      } else if k >= |a| + 4 {
        assert g[k] == b[k - |a| - 4];
      }
    }
    assert g[|a| + 1] == ',' && g[|a| + 4] == b[0];
    PlatformGroup(g, rest);
  }

  // ---------------------------------------------------------------------
  // One module file
  // ---------------------------------------------------------------------

  /**
   * A file found under `modules/exploits`: its path relative to the
   * repository, and its text as read with `errors='ignore'`, or `None` when
   * opening or reading it raised.
   */
  datatype ModuleFile = ModuleFile(relPath: string, content: Option<string>)

  datatype ModuleRecord = ModuleRecord(
    id: string,
    name: string,
    description: string,
    cveIds: seq<string>,
    platform: string,
    content: string,
    source: string,
    language: string)

  /** `_process_module`: every field independently optional, with its default. */
  function ProcessModule(f: ModuleFile): Option<ModuleRecord> {
    match f.content
    case None => None
    case Some(content) =>
      var description := Search(content, DescriptionPattern);
      Some(ModuleRecord(
        f.relPath,
        Search(content, NamePattern).GetOr("Unknown"),
        if description.Some? then Strip(description.value) else "",
        FindAll(content),
        Search(content, PlatformPattern).GetOr("unknown"),
        content,
        "metasploit",
        "ruby"))
  }

  /**
   * What a module record holds: the file's path and text unchanged, the
   * fixed source and language, each field's default when its marker
   * occurs nowhere and otherwise the group of the leftmost match (the
   * description stripped), of the shape its marker gives, and the bare CVE
   * numbers the scan of the text finds.
   */
  lemma ModuleRecordFields(f: ModuleFile)
    ensures ProcessModule(f).Some? <==> f.content.Some?
    ensures ProcessModule(f).Some? ==>
      var r := ProcessModule(f).value;
      var s := f.content.value;
      && r.id == f.relPath && r.content == s && r.source == "metasploit" && r.language == "ruby"
      && ((forall i, b, c, d, e :: !Matches(s, NamePattern, i, b, c, d, e)) ==> r.name == "Unknown")
      && (Search(s, NamePattern).Some? ==>
            |r.name| >= 1 && NoNewline(r.name) && forall k :: 1 <= k < |r.name| ==> r.name[k] !in Quotes)
      && ((forall i, b, c, d, e :: !Matches(s, DescriptionPattern, i, b, c, d, e)) ==> r.description == "")
      && (r.description == [] || (!IsSpace(r.description[0]) && !IsSpace(r.description[|r.description| - 1])))
      && ((forall i, b, c, d, e :: !Matches(s, PlatformPattern, i, b, c, d, e)) ==> r.platform == "unknown")
      && (Search(s, PlatformPattern).Some? ==> |r.platform| >= 1 && NoNewline(r.platform))
      && (forall k :: 0 <= k < |r.cveIds| ==> CveNumber(r.cveIds[k]) && !StartsWith(r.cveIds[k], "CVE-"))
      && (Search(s, NamePattern).Some? ==> r.name == Search(s, NamePattern).value)
      && (Search(s, DescriptionPattern).Some? ==> r.description == Strip(Search(s, DescriptionPattern).value))
      && (Search(s, PlatformPattern).Some? ==> r.platform == Search(s, PlatformPattern).value)
      && r.cveIds == FindAll(s)
  {
    if f.content.Some? {
      var s := f.content.value;
      SearchSpec(s, NamePattern);
      SearchSpec(s, DescriptionPattern);
      SearchSpec(s, PlatformPattern);
      if Search(s, NamePattern).Some? {
        NameShape(s);
      }
      if Search(s, PlatformPattern).Some? {
        PlatformShape(s);
      }
      FindAllShape(s);
      NoCapturedCvePrefix(s);
    }
  }

  // ---------------------------------------------------------------------
  // The loop over the module files
  // ---------------------------------------------------------------------

  /** What `_process_module` gives for each file, in the order the walk yields them. */
  function Outcomes(files: seq<ModuleFile>): seq<Option<ModuleRecord>>
  {
    seq(|files|, k requires 0 <= k < |files| => ProcessModule(files[k]))
  }

  /** The records among the outcomes, in order. */
  function Successes(os: seq<Option<ModuleRecord>>): seq<ModuleRecord> {
    if os == [] then []
    else (if os[0].Some? then [os[0].value] else []) + Successes(os[1..])
  }

  /** The loop's list and the `total_processed` counter. */
  datatype ParseState = ParseState(modules: seq<ModuleRecord>, processed: nat)

  /** The `for file_path in ...` loop over the outcomes, with its `limit` check after each appended record. */
  function TakeModules(os: seq<Option<ModuleRecord>>, limit: Option<int>, st: ParseState): ParseState {
    if os == [] then st
    else if os[0].None? then TakeModules(os[1..], limit, st)
    else
      var st' := ParseState(st.modules + [os[0].value], st.processed + 1);
      if Capped(limit, st'.processed) then st' else TakeModules(os[1..], limit, st')
  }

  /**
   * Each record appended is counted; a positive limit not yet reached is
   * never overshot, and one already reached lets at most one more record
   * through (exactly one when there is one, by `OneMoreThrough`).
   */
  lemma {:induction false} TakeModulesCount(os: seq<Option<ModuleRecord>>, limit: Option<int>, st: ParseState)
    ensures var r := TakeModules(os, limit, st);
      && st.processed <= r.processed
      && |r.modules| == |st.modules| + (r.processed - st.processed)
      && (PositiveCap(limit) && st.processed < limit.value ==> r.processed <= limit.value)
      && (PositiveCap(limit) && st.processed >= limit.value ==> r.processed <= st.processed + 1)
  {
    if os != [] {
      if os[0].None? {
        TakeModulesCount(os[1..], limit, st);
      } else {
        var st' := ParseState(st.modules + [os[0].value], st.processed + 1);
        if !Capped(limit, st'.processed) {
          TakeModulesCount(os[1..], limit, st');
        }
      }
    }
  }

  /**
   * A limit already reached still lets exactly one more record through
   * when the remaining files hold one, because the check follows the append.
   */
  lemma {:induction false} OneMoreThrough(os: seq<Option<ModuleRecord>>, limit: Option<int>, st: ParseState)
    requires PositiveCap(limit) && st.processed >= limit.value
    requires exists k :: 0 <= k < |os| && os[k].Some?
    ensures TakeModules(os, limit, st).processed == st.processed + 1
  {
    var k :| 0 <= k < |os| && os[k].Some?;
    if os[0].None? {
      assert os[1..][k - 1] == os[k];
      OneMoreThrough(os[1..], limit, st);
    }
  }

  /** The records of the first `k` outcomes were appended, and the loop stopped early only on the limit. */
  predicate ModulesPrefix(os: seq<Option<ModuleRecord>>, limit: Option<int>, st: ParseState, r: ParseState, k: int) {
    && 0 <= k <= |os|
    && r.modules == st.modules + Successes(os[..k])
    && (k < |os| ==> Capped(limit, r.processed))
  }

  lemma SuccessesCons(os: seq<Option<ModuleRecord>>, k: nat)
    requires k < |os|
    ensures Successes(os[..k + 1]) == Successes([os[0]]) + Successes(os[1..][..k])
  {
    var q := os[..k + 1];
    assert q[0] == os[0] && q[1..] == os[1..][..k];
    assert [os[0]][1..] == [];
  }

  /** The records appended are those of a prefix of the files, all of them unless the limit stopped the loop. */
  lemma {:induction false} TakeModulesPrefix(os: seq<Option<ModuleRecord>>, limit: Option<int>, st: ParseState)
    ensures exists k :: ModulesPrefix(os, limit, st, TakeModules(os, limit, st), k)
  {
    var r := TakeModules(os, limit, st);
    if os == [] {
      assert os[..0] == [];
      assert ModulesPrefix(os, limit, st, r, 0);
    } else {
      var st' := if os[0].Some? then ParseState(st.modules + [os[0].value], st.processed + 1) else st;
      assert [os[0]][1..] == [];
      assert st'.modules == st.modules + Successes([os[0]]);
      if os[0].Some? && Capped(limit, st'.processed) {
        assert r == st';
        assert os[..1] == [os[0]];
        assert ModulesPrefix(os, limit, st, r, 1);
      } else {
        assert r == TakeModules(os[1..], limit, st');
        TakeModulesPrefix(os[1..], limit, st');
        var k' :| ModulesPrefix(os[1..], limit, st', r, k');
        ModulesPrefixStep(os, limit, st, st', r, k');
      }
    }
  }

  /** A prefix of the tail after the first outcome is, with that outcome, a prefix of the files. */
  lemma ModulesPrefixStep(os: seq<Option<ModuleRecord>>, limit: Option<int>, st: ParseState, st': ParseState,
                          r: ParseState, k: int)
    requires os != [] && st'.modules == st.modules + Successes([os[0]])
    requires ModulesPrefix(os[1..], limit, st', r, k)
    ensures ModulesPrefix(os, limit, st, r, k + 1)
  {
    SuccessesCons(os, k);
    assert r.modules == st.modules + (Successes([os[0]]) + Successes(os[1..][..k]));
    assert k + 1 < |os| ==> k < |os[1..]|;
  }

  /** `MetasploitScraper`: the `stats` counters (the directories are not modelled). */
  class MetasploitScraper {
    var totalProcessed: nat
    var totalSaved: nat
    var errors: nat

    constructor ()
      ensures totalProcessed == 0 && totalSaved == 0 && errors == 0
    {
      totalProcessed := 0;
      totalSaved := 0;
      errors := 0;
    }

    /**
     * `parse_modules`: without a `modules/exploits` directory it raises
     * before touching anything; otherwise it returns what `TakeModules`
     * gives. `_process_module` catches every exception itself, so the loop's
     * `except` branch never runs and `errors` stays as it was.
     */
    method ParseModules(exploitsDirExists: bool, files: seq<ModuleFile>, limit: Option<int>)
      returns (r: Result<seq<ModuleRecord>>)
      modifies this
      ensures !exploitsDirExists ==> r == Raised("FileNotFoundError") && totalProcessed == old(totalProcessed)
      ensures exploitsDirExists ==>
        var st := TakeModules(Outcomes(files), limit, ParseState([], old(totalProcessed)));
        r == Ok(st.modules) && totalProcessed == st.processed
      ensures errors == old(errors) && totalSaved == old(totalSaved)
    {
      if !exploitsDirExists {
        return Raised("FileNotFoundError");
      }
      ghost var os := Outcomes(files);
      ghost var st0 := ParseState([], totalProcessed);
      var modules := [];
      for i := 0 to |files|
        invariant TakeModules(os[i..], limit, ParseState(modules, totalProcessed)) == TakeModules(os, limit, st0)
        invariant errors == old(errors) && totalSaved == old(totalSaved)
      {
        assert os[i..][0] == ProcessModule(files[i]) && os[i..][1..] == os[i + 1..];
        var moduleData := ProcessModule(files[i]);
        if moduleData.Some? {
          modules := modules + [moduleData.value];
          totalProcessed := totalProcessed + 1;
          if Capped(limit, totalProcessed) {
            break;
          }
        }
      }
      r := Ok(modules);
    }
  }
}
