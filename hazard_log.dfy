/**
 * The monitoring dashboard's log reader: each log line becomes entries of
 * three parallel timelines (time step, hazard code, hazard-or-normal
 * status), and the timeline is split into normal and abnormal time.
 */
module HazardLog {
  import opened Wrappers

  /** The line that marks five seconds of normal operation. */
  const NormalMarker: string := "Everything is normal"
  /** Time steps one normal line stands for. */
  const NormalSteps := 5

  /** Hazard keywords with their codes, in the order they are tried. */
  const HazardMap: seq<(string, int)> := [
    ("High Temperature", 1),
    ("Gas Leak", 2),
    ("Low Oxygen", 3),
    ("Magnetic Field", 4),
    ("Radiation", 5)
  ]

  /** Code 0 is normal; 1..5 name a hazard. */
  predicate IsHazardCode(code: int) { 0 <= code <= 5 }

  /** Python's `key in text` for strings: `key` occurs somewhere in `text`. */
  predicate Contains(text: string, key: string): (found: bool)
    ensures found ==> |key| <= |text|
    ensures key == [] ==> found
  {
    assert key == [] ==> OccursAt(text, key, 0);
    exists i | 0 <= i <= |text| - |key| :: OccursAt(text, key, i)
  }

  /** `key` occurs in `text` starting at index `i`. */
  predicate OccursAt(text: string, key: string, i: int)
  {
    0 <= i <= |text| - |key| && text[i..i + |key|] == key
  }

  /**
   * The ASCII characters that `str.strip` removes: space, tab, line feed,
   * vertical tab, form feed, carriage return and the four separators
   * 0x1C..0x1F.
   */
  predicate IsSpace(c: char)
  {
    c == ' ' || c == '\t' || c == '\n' || c == '\r' || c == '\U{0B}' || c == '\U{0C}'
    || c == '\U{1C}' || c == '\U{1D}' || c == '\U{1E}' || c == '\U{1F}'
  }

  /** The line without its leading whitespace. */
  function TrimLeft(s: string): string
  {
    if s != [] && IsSpace(s[0]) then TrimLeft(s[1..]) else s
  }

  /** The line without its trailing whitespace. */
  function TrimRight(s: string): string
  {
    if s != [] && IsSpace(s[|s| - 1]) then TrimRight(s[..|s| - 1]) else s
  }

  /** TrimLeft drops a run of whitespace from the front and stops at the first other character. */
  lemma {:induction false} TrimLeftDropsSpaces(s: string)
    ensures |TrimLeft(s)| <= |s| && TrimLeft(s) == s[|s| - |TrimLeft(s)|..]
    ensures TrimLeft(s) != [] ==> !IsSpace(TrimLeft(s)[0])
    ensures forall i :: 0 <= i < |s| - |TrimLeft(s)| ==> IsSpace(s[i])
  {
    if s != [] && IsSpace(s[0]) {
      var rest := s[1..];
      TrimLeftDropsSpaces(rest);
      var t := TrimLeft(rest);
      assert TrimLeft(s) == t;
      assert rest[|rest| - |t|..] == s[|s| - |t|..];
      forall i | 0 <= i < |s| - |t|
        ensures IsSpace(s[i])
      {
        if i > 0 {
          assert s[i] == rest[i - 1];
        }
      }
    }
  }

  /** TrimRight drops a run of whitespace from the back and stops at the last other character. */
  lemma {:induction false} TrimRightDropsSpaces(s: string)
    ensures |TrimRight(s)| <= |s| && TrimRight(s) == s[..|TrimRight(s)|]
    ensures TrimRight(s) != [] ==> !IsSpace(TrimRight(s)[|TrimRight(s)| - 1])
    ensures forall i :: |TrimRight(s)| <= i < |s| ==> IsSpace(s[i])
  {
    if s != [] && IsSpace(s[|s| - 1]) {
      var rest := s[..|s| - 1];
      TrimRightDropsSpaces(rest);
      var t := TrimRight(rest);
      assert TrimRight(s) == t;
      assert rest[..|t|] == s[..|t|];
      forall i | |t| <= i < |s|
        ensures IsSpace(s[i])
      {
        if i < |s| - 1 {
          assert s[i] == rest[i];
        }
      }
    }
  }

  /** `str.strip()`: the line without leading and trailing whitespace. */
  function Strip(s: string): (r: string)
    ensures var a := |s| - |TrimLeft(s)|; 0 <= a && a + |r| <= |s| && r == s[a..a + |r|]
    ensures var a := |s| - |TrimLeft(s)|; forall i :: 0 <= i < |s| && (i < a || a + |r| <= i) ==> IsSpace(s[i])
    ensures r != [] ==> !IsSpace(r[0]) && !IsSpace(r[|r| - 1])
  {
    TrimLeftDropsSpaces(s);
    TrimRightDropsSpaces(TrimLeft(s));
    TrimRight(TrimLeft(s))
  }

  /** An occurrence in a suffix of `s` is an occurrence in `s`, shifted by the part cut off, and back. */
  lemma OccursInSuffix(s: string, a: int, key: string, i: int)
    requires 0 <= a <= |s| && 0 <= i
    ensures OccursAt(s[a..], key, i) <==> OccursAt(s, key, i + a)
  {
    if i <= |s| - a - |key| {
      var k := |key|;
      assert s[a..][i..i + k] == s[i + a..i + a + k];
    }
  }

  /** An occurrence in a prefix of `s` is an occurrence in `s`, and back when it ends inside the prefix. */
  lemma OccursInPrefix(s: string, n: int, key: string, i: int)
    requires 0 <= n <= |s| && 0 <= i && i + |key| <= n
    ensures OccursAt(s[..n], key, i) <==> OccursAt(s, key, i)
  {
    var k := |key|;
    assert s[..n][i..i + k] == s[i..i + k];
  }

  /** A keyword that does not start with whitespace occurs in a line exactly when it occurs once the leading whitespace is gone. */
  lemma ContainsAfterTrimLeft(s: string, key: string)
    requires key != [] && !IsSpace(key[0])
    ensures Contains(TrimLeft(s), key) <==> Contains(s, key)
  {
    TrimLeftDropsSpaces(s);
    var t := TrimLeft(s);
    var a := |s| - |t|;
    assert t == s[a..];
    if Contains(t, key) {
      var i :| 0 <= i <= |t| - |key| && OccursAt(t, key, i);
      OccursInSuffix(s, a, key, i);
    }
    if Contains(s, key) {
      var i :| 0 <= i <= |s| - |key| && OccursAt(s, key, i);
      assert s[i] == key[0];
      assert i >= a;
      OccursInSuffix(s, a, key, i - a);
    }
  }

  /** A keyword that does not end with whitespace occurs in a line exactly when it occurs once the trailing whitespace is gone. */
  lemma ContainsAfterTrimRight(s: string, key: string)
    requires key != [] && !IsSpace(key[|key| - 1])
    ensures Contains(TrimRight(s), key) <==> Contains(s, key)
  {
    TrimRightDropsSpaces(s);
    var t := TrimRight(s);
    var n := |t|;
    assert t == s[..n];
    if Contains(t, key) {
      var i :| 0 <= i <= |t| - |key| && OccursAt(t, key, i);
      OccursInPrefix(s, n, key, i);
    }
    if Contains(s, key) {
      var i :| 0 <= i <= |s| - |key| && OccursAt(s, key, i);
      assert s[i + |key| - 1] == key[|key| - 1];
      assert i + |key| <= n;
      OccursInPrefix(s, n, key, i);
    }
  }

  /**
   * Stripping a line never changes whether the normal marker or a hazard
   * keyword occurs in it: none of them begins or ends with whitespace.
   */
  lemma StripKeepsKeywords(line: string)
    ensures Contains(Strip(line), NormalMarker) <==> Contains(line, NormalMarker)
    ensures forall j :: 0 <= j < |HazardMap| ==> (Contains(Strip(line), HazardMap[j].0) <==> Contains(line, HazardMap[j].0))
  {
    ContainsAfterTrimLeft(line, NormalMarker);
    ContainsAfterTrimRight(TrimLeft(line), NormalMarker);
    forall j | 0 <= j < |HazardMap|
      ensures Contains(Strip(line), HazardMap[j].0) <==> Contains(line, HazardMap[j].0)
    {
      ContainsAfterTrimLeft(line, HazardMap[j].0);
      ContainsAfterTrimRight(TrimLeft(line), HazardMap[j].0);
    }
  }

  /**
   * The code of the first keyword of `entries` that occurs in `line`, if any.
   */
  function FirstHazard(line: string, entries: seq<(string, int)>): (r: Option<int>)
    ensures r.None? <==> forall j :: 0 <= j < |entries| ==> !Contains(line, entries[j].0)
    ensures r.Some? ==> exists j :: 0 <= j < |entries| && Contains(line, entries[j].0) && r.value == entries[j].1
  {
    assert forall j :: 1 <= j < |entries| ==> entries[j] == entries[1..][j - 1];
    if entries == [] then None
    else if Contains(line, entries[0].0) then Some(entries[0].1)
    else FirstHazard(line, entries[1..])
  }

  /**
   * When keyword `j` occurs and no earlier one does, FirstHazard finds the
   * code of keyword `j`: the scan stops at the earliest match.
   */
  lemma {:induction false} FirstHazardIsFirst(line: string, entries: seq<(string, int)>, j: int)
    requires 0 <= j < |entries| && Contains(line, entries[j].0)
    requires forall i :: 0 <= i < j ==> !Contains(line, entries[i].0)
    ensures FirstHazard(line, entries) == Some(entries[j].1)
  {
    if j > 0 {
      assert !Contains(line, entries[0].0);
      var rest := entries[1..];
      assert rest[j - 1] == entries[j];
      assert forall i :: 0 <= i < j - 1 ==> rest[i] == entries[i + 1];
      FirstHazardIsFirst(line, rest, j - 1);
    }
  }

  /**
   * The hazard codes one (stripped) line adds: five zeros for a normal line,
   * even one that also names a hazard; otherwise the code of the first
   * keyword found, or nothing.
   */
  function LineHazards(line: string): (r: seq<int>)
    ensures |r| <= NormalSteps
    ensures |r| == NormalSteps <==> Contains(line, NormalMarker)
    ensures r == [] <==> !Contains(line, NormalMarker) && forall j :: 0 <= j < |HazardMap| ==> !Contains(line, HazardMap[j].0)
  {
    if Contains(line, NormalMarker) then seq(NormalSteps, _ => 0)
    else
      match FirstHazard(line, HazardMap)
      case Some(code) => [code]
      case None => []
  }

  /** The entries a line adds: five normal ones, or at most one hazard code, in 1..5. */
  lemma LineHazardsShape(line: string)
    ensures Contains(line, NormalMarker) ==> LineHazards(line) == [0, 0, 0, 0, 0]
    ensures !Contains(line, NormalMarker) ==> |LineHazards(line)| <= 1
    ensures !Contains(line, NormalMarker) ==> forall i :: 0 <= i < |LineHazards(line)| ==> 1 <= LineHazards(line)[i] <= 5
  {
  }

  /** Two lines in which the same keywords occur get the same first hazard. */
  lemma {:induction false} FirstHazardBySameKeywords(line1: string, line2: string, entries: seq<(string, int)>)
    requires forall j :: 0 <= j < |entries| ==> (Contains(line1, entries[j].0) <==> Contains(line2, entries[j].0))
    ensures FirstHazard(line1, entries) == FirstHazard(line2, entries)
  {
    if entries != [] {
      assert forall j :: 1 <= j < |entries| ==> entries[j] == entries[1..][j - 1];
      FirstHazardBySameKeywords(line1, line2, entries[1..]);
    }
  }

  /** Stripping a line never changes the entries it adds. */
  lemma StripKeepsEntries(line: string)
    ensures LineHazards(Strip(line)) == LineHazards(line)
  {
    StripKeepsKeywords(line);
    FirstHazardBySameKeywords(Strip(line), line, HazardMap);
  }

  /** Hazard codes of all lines, in order. */
  function Hazards(logs: seq<string>): (r: seq<int>)
    ensures |r| <= NormalSteps * |logs|
  {
    if logs == [] then [] else Hazards(logs[..|logs| - 1]) + LineHazards(Strip(logs[|logs| - 1]))
  }

  /** The status entry for a hazard code: 0 for normal, 1 for any hazard. */
  function StatusOf(code: int): (status: int)
    ensures status == 0 || status == 1
    ensures status == 1 <==> code != 0
  {
    if code == 0 then 0 else 1
  }

  /** Every code in the hazard timeline is 0..5. */
  lemma {:induction false} HazardCodesInRange(logs: seq<string>)
    ensures forall i :: 0 <= i < |Hazards(logs)| ==> IsHazardCode(Hazards(logs)[i])
  {
    if logs != [] {
      var front := logs[..|logs| - 1];
      HazardCodesInRange(front);
      var line := Strip(logs[|logs| - 1]);
      assert Hazards(logs) == Hazards(front) + LineHazards(line);
      LineHazardsShape(line);
      forall i | 0 <= i < |Hazards(logs)|
        ensures IsHazardCode(Hazards(logs)[i])
      {
        if i >= |Hazards(front)| {
          assert Hazards(logs)[i] == LineHazards(line)[i - |Hazards(front)|];
        }
      }
    }
  }

  /**
   * The three timelines are parallel, the time list counts 0, 1, 2, ...,
   * and each status entry says whether its hazard code is non-zero.
   */
  predicate Parallel(timeList: seq<int>, hazardList: seq<int>, binaryStatus: seq<int>)
  {
    && |timeList| == |hazardList| == |binaryStatus|
    && (forall i :: 0 <= i < |timeList| ==> timeList[i] == i)
    && (forall i :: 0 <= i < |binaryStatus| ==> binaryStatus[i] == StatusOf(hazardList[i]))
  }

  /** Appending one entry at the next time step keeps the timelines parallel. */
  lemma AppendKeepsParallel(timeList: seq<int>, hazardList: seq<int>, binaryStatus: seq<int>, code: int)
    requires Parallel(timeList, hazardList, binaryStatus)
    ensures Parallel(timeList + [|timeList|], hazardList + [code], binaryStatus + [StatusOf(code)])
  {
  }

  /** The five normal entries a normal line adds, one time step each. */
  method AppendNormal(timeList: seq<int>, hazardList: seq<int>, binaryStatus: seq<int>, currentTime: int)
    returns (timeList': seq<int>, hazardList': seq<int>, binaryStatus': seq<int>, currentTime': int)
    requires currentTime == |timeList| && Parallel(timeList, hazardList, binaryStatus)
    ensures hazardList' == hazardList + seq(NormalSteps, _ => 0)
    ensures currentTime' == |timeList'| && Parallel(timeList', hazardList', binaryStatus')
  {
    timeList', hazardList', binaryStatus', currentTime' := timeList, hazardList, binaryStatus, currentTime;
    for step := 0 to NormalSteps
      invariant hazardList' == hazardList + seq(step, _ => 0)
      invariant currentTime' == |timeList'|
      invariant Parallel(timeList', hazardList', binaryStatus')
    {
      AppendKeepsParallel(timeList', hazardList', binaryStatus', 0);
      assert seq(step + 1, _ => 0) == seq(step, _ => 0) + [0];
      timeList' := timeList' + [currentTime'];
      hazardList' := hazardList' + [0];
      binaryStatus' := binaryStatus' + [0];
      currentTime' := currentTime' + 1;
    }
  }

  /**
   * The body of the dashboard's loop for one stripped line: five normal
   * entries for a normal line, otherwise one entry for the first hazard
   * keyword found, each at the next time step.
   */
  method AppendLine(log: string, timeList: seq<int>, hazardList: seq<int>, binaryStatus: seq<int>, currentTime: int)
    returns (timeList': seq<int>, hazardList': seq<int>, binaryStatus': seq<int>, currentTime': int)
    requires currentTime == |timeList| && Parallel(timeList, hazardList, binaryStatus)
    ensures hazardList' == hazardList + LineHazards(log)
    ensures currentTime' == |timeList'| && Parallel(timeList', hazardList', binaryStatus')
  {
    timeList', hazardList', binaryStatus', currentTime' := timeList, hazardList, binaryStatus, currentTime;
    if Contains(log, NormalMarker) {
      timeList', hazardList', binaryStatus', currentTime' := AppendNormal(timeList, hazardList, binaryStatus, currentTime);
    } else {
      var j := 0;
      while j < |HazardMap|
        invariant 0 <= j <= |HazardMap|
        invariant forall i :: 0 <= i < j ==> !Contains(log, HazardMap[i].0)
        invariant hazardList' == hazardList
      {
        var (keyword, code) := HazardMap[j];
        if Contains(log, keyword) {
          FirstHazardIsFirst(log, HazardMap, j);
          AppendKeepsParallel(timeList', hazardList', binaryStatus', code);
          timeList' := timeList' + [currentTime'];
          hazardList' := hazardList' + [code];
          binaryStatus' := binaryStatus' + [1];
          currentTime' := currentTime' + 1;
          break;
        }
        j := j + 1;
      }
    }
  }

  /**
   * The dashboard's loop: each line, stripped, appends to the three
   * timelines, and the time step advances by one per entry.
   */
  method BuildTimeline(logs: seq<string>) returns (timeList: seq<int>, hazardList: seq<int>, binaryStatus: seq<int>)
    ensures hazardList == Hazards(logs)
    ensures Parallel(timeList, hazardList, binaryStatus)
  {
    timeList, hazardList, binaryStatus := [], [], [];
    var currentTime := 0;
    for k := 0 to |logs|
      invariant hazardList == Hazards(logs[..k])
      invariant currentTime == |timeList|
      invariant Parallel(timeList, hazardList, binaryStatus)
    {
      assert logs[..k + 1][..k] == logs[..k];
      var log := Strip(logs[k]);
      timeList, hazardList, binaryStatus, currentTime := AppendLine(log, timeList, hazardList, binaryStatus, currentTime);
    }
    assert logs[..|logs|] == logs;
  }

  /** Occurrences of `x` in `s`. */
  function Count(s: seq<int>, x: int): (n: nat)
    ensures n <= |s|
  {
    if s == [] then 0 else Count(s[..|s| - 1], x) + (if s[|s| - 1] == x then 1 else 0)
  }

  /**
   * The time split: total steps, normal steps (hazard code 0) and abnormal
   * steps, the rest.
   */
  function TimeSplit(hazardList: seq<int>): (split: (int, int, int))
    ensures split.0 == |hazardList| && split.1 + split.2 == split.0
    ensures 0 <= split.1 && 0 <= split.2
  {
    var total := |hazardList|;
    var normal := Count(hazardList, 0);
    (total, normal, total - normal)
  }

  /** The abnormal time is exactly the number of status entries equal to 1. */
  lemma {:induction false} AbnormalTimeCountsAlerts(hazardList: seq<int>, binaryStatus: seq<int>)
    requires |binaryStatus| == |hazardList|
    requires forall i :: 0 <= i < |binaryStatus| ==> binaryStatus[i] == StatusOf(hazardList[i])
    ensures Count(binaryStatus, 1) == TimeSplit(hazardList).2
    ensures Count(binaryStatus, 0) == TimeSplit(hazardList).1
  {
    if hazardList != [] {
      var n := |hazardList| - 1;
      AbnormalTimeCountsAlerts(hazardList[..n], binaryStatus[..n]);
    }
  }
}
