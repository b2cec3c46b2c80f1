/**
 * The live meeting panel: the elapsed-time clock and its mm:ss display,
 * the detected tasks with their confirm toggle, and participant initials.
 */
module MeetingLiveView {
  import opened Domain
  import Fixtures
  import opened Seqs
  import opened Decimal

  datatype DetectedTask = DetectedTask(id: string, title: string, confidence: ConfidenceLevel, confirmed: bool)

  const MockDetectedTasks: seq<DetectedTask> := [
    DetectedTask("1", "Draft initial product roadmap document", High, true),
    DetectedTask("2", "Coordinate with engineering on technical feasibility", Medium, false),
    DetectedTask("3", "Prepare market analysis section", High, false)
  ]

  /** The clock starts at 1:45 into the meeting. */
  const InitialElapsed: nat := 105

  /** `formatTime`: whole minutes, a colon, then the seconds, each padded to two digits. */
  function FormatTime(seconds: nat): (r: string)
    ensures |r| >= 5 && r[|r| - 3] == ':'
    ensures forall i :: 0 <= i < |r| && i != |r| - 3 ==> IsDigit(r[i])
  {
    var m := Pad2(seconds / 60);
    var s := Pad2(seconds % 60);
    assert forall i :: 0 <= i < |m| ==> (m + ":" + s)[i] == m[i];
    assert forall i :: |m| < i < |m| + 3 ==> (m + ":" + s)[i] == s[i - |m| - 1];
    m + ":" + s
  }

  /**
   * The display reads back as the time it shows: the colon is the third
   * character from the end, the digits before it are the whole minutes
   * (never cut to two digits) and the two after it the remaining seconds.
   */
  lemma FormatTimeReadsBack(seconds: nat)
    ensures var r := FormatTime(seconds);
      && |r| >= 5
      && r[|r| - 3] == ':'
      && AllDigits(r[..|r| - 3]) && AllDigits(r[|r| - 2..])
      && DigitsValue(r[..|r| - 3]) == seconds / 60
      && DigitsValue(r[|r| - 2..]) == seconds % 60
      && DigitsValue(r[..|r| - 3]) * 60 + DigitsValue(r[|r| - 2..]) == seconds
  {
    var m := Pad2(seconds / 60);
    var s := Pad2(seconds % 60);
    var r := FormatTime(seconds);
    assert r == m + ":" + s;
    assert r[..|r| - 3] == m;
    assert r[|r| - 2..] == s;
  }

  /**
   * The minutes are as wide as `padStart(2, "0")` makes them: two digits
   * below ten minutes, and from ten minutes on no leading zero, so the
   * display is never padded further.
   */
  lemma FormatTimeWidth(seconds: nat)
    ensures |FormatTime(seconds)| == |Pad2(seconds / 60)| + 3
    ensures seconds < 600 ==> |FormatTime(seconds)| == 5
    ensures seconds >= 600 ==> FormatTime(seconds)[0] != '0'
  {
    var m := Pad2(seconds / 60);
    var s := Pad2(seconds % 60);
    assert FormatTime(seconds) == m + ":" + s;
    assert (m + ":" + s)[0] == m[0];
  }

  /** Below 100 minutes the display is exactly "mm:ss". */
  lemma FormatTimeShape(seconds: nat)
    requires seconds < 6000
    ensures |FormatTime(seconds)| == 5 && FormatTime(seconds)[2] == ':'
  {
    FormatTimeReadsBack(seconds);
  }

  /** The clock's starting value, 105 seconds, shows as "01:45". */
  lemma FormatTimeAtStart()
    ensures FormatTime(InitialElapsed) == "01:45"
  {
    assert NatToString(1) == "1";
    assert Pad2(1) == "01";
    assert NatToString(4) == "4";
    assert NatToString(45) == "45";
    var m := Pad2(1);
    var s := Pad2(45);
    assert s == "45";
    assert FormatTime(InitialElapsed) == m + ":" + s;
  }

  /** One hundred minutes shows all three minute digits: "100:00". */
  lemma FormatTimeHundredMinutes()
    ensures FormatTime(6000) == "100:00"
  {
    assert NatToString(1) == "1";
    assert NatToString(10) == "10";
    assert NatToString(100) == "100";
    var m := Pad2(100);
    assert m == "100";
    assert NatToString(0) == "0";
    var s := Pad2(0);
    assert s == "00";
    assert FormatTime(6000) == m + ":" + s;
  }

  /** `toggleTaskConfirmation`: flips `confirmed` on the tasks with the id. */
  function Toggle(tasks: seq<DetectedTask>, id: string): (r: seq<DetectedTask>)
    ensures |r| == |tasks|
    ensures forall i :: 0 <= i < |r| ==> (r[i].confirmed != tasks[i].confirmed <==> tasks[i].id == id)
  {
    UpdateWhere(tasks, (t: DetectedTask) => t.id == id, (t: DetectedTask) => t.(confirmed := !t.confirmed))
  }

  /**
   * A toggle flips only the matching tasks' flag, keeping length, order and
   * every other field; toggling the same id twice restores the list.
   */
  lemma ToggleOnlyMatching(tasks: seq<DetectedTask>, id: string)
    ensures |Toggle(tasks, id)| == |tasks|
    ensures forall i :: 0 <= i < |tasks| ==>
      var t := Toggle(tasks, id)[i];
      && t.(confirmed := tasks[i].confirmed) == tasks[i]
      && (tasks[i].id == id ==> t.confirmed == !tasks[i].confirmed)
      && (tasks[i].id != id ==> t == tasks[i])
    ensures Toggle(Toggle(tasks, id), id) == tasks
  {
    var twice := Toggle(Toggle(tasks, id), id);
    assert |twice| == |tasks|;
    forall i | 0 <= i < |tasks| ensures twice[i] == tasks[i] {
    }
  }

  predicate IsUnconfirmed(t: DetectedTask) {
    !t.confirmed
  }

  predicate IsConfirmed(t: DetectedTask) {
    t.confirmed
  }

  /** The detected tasks still awaiting confirmation. */
  function PendingTasks(tasks: seq<DetectedTask>): (r: seq<DetectedTask>)
    ensures forall t :: t in r <==> t in tasks && !t.confirmed
  {
    Filter(tasks, IsUnconfirmed)
  }

  /** The detected tasks already confirmed. */
  function ConfirmedTasks(tasks: seq<DetectedTask>): (r: seq<DetectedTask>)
    ensures forall t :: t in r <==> t in tasks && t.confirmed
  {
    Filter(tasks, IsConfirmed)
  }

  /** The pending and confirmed lists split the detected tasks. */
  lemma PendingConfirmedPartition(tasks: seq<DetectedTask>)
    ensures |PendingTasks(tasks)| + |ConfirmedTasks(tasks)| == |tasks|
    ensures multiset(PendingTasks(tasks)) + multiset(ConfirmedTasks(tasks)) == multiset(tasks)
  {
    FilterSplit(tasks, IsUnconfirmed, IsConfirmed);
  }

  /** `name.split(" ")`: the pieces between single spaces, empty pieces included. */
  function SplitSpaces(s: string): (parts: seq<string>)
    ensures |parts| >= 1
    ensures forall i :: 0 <= i < |parts| ==> ' ' !in parts[i]
  {
    if s == [] then [""]
    else
      var rest := SplitSpaces(s[1..]);
      if s[0] == ' ' then [""] + rest
      else [[s[0]] + rest[0]] + rest[1..]
  }

  /** A word followed by a space splits off as the first piece. */
  lemma {:induction false} SplitAtSpace(word: string, rest: string)
    requires ' ' !in word
    ensures SplitSpaces(word + " " + rest) == [word] + SplitSpaces(rest)
  {
    if word == [] {
      assert word + " " + rest == [' '] + rest;
    } else {
      SplitAtSpace(word[1..], rest);
      assert (word + " " + rest)[1..] == word[1..] + " " + rest;
      assert [word[0]] + word[1..] == word;
    }
  }

  /** `parts.join(" ")`. */
  function JoinSpaces(parts: seq<string>): string
    requires |parts| >= 1
  {
    if |parts| == 1 then parts[0] else parts[0] + " " + JoinSpaces(parts[1..])
  }

  /** Joining the pieces back with spaces gives the name again. */
  lemma {:induction false} SplitJoin(s: string)
    ensures JoinSpaces(SplitSpaces(s)) == s
  {
    if s != [] {
      SplitJoin(s[1..]);
      var rest := SplitSpaces(s[1..]);
      if s[0] == ' ' {
        assert ([""] + rest)[1..] == rest;
        assert s == [s[0]] + s[1..];
      } else {
        var parts := [[s[0]] + rest[0]] + rest[1..];
        if |rest| == 1 {
          assert s == [s[0]] + rest[0];
        } else {
          assert parts[1..] == rest[1..];
          assert JoinSpaces(rest) == rest[0] + " " + JoinSpaces(rest[1..]);
          assert s == [s[0]] + s[1..];
        }
      }
    }
  }

  /** The first character of each piece, with empty pieces giving nothing (`n[0]` is undefined and joins as ""). */
  function Firsts(parts: seq<string>): (r: string)
    ensures |r| <= |parts|
  {
    if parts == [] then ""
    else (if parts[0] == "" then "" else [parts[0][0]]) + Firsts(parts[1..])
  }

  /** The avatar fallback: `name.split(" ").map(n => n[0]).join("")`. */
  function Initials(name: string): (r: string)
    ensures |r| <= |SplitSpaces(name)| && |r| <= |name|
    ensures ' ' !in r
  {
    FirstsOfSplit(name);
    WordStartsBounds(name, true);
    Firsts(SplitSpaces(name))
  }

  /**
   * The reference reading of initials: the characters of `s` that are not
   * spaces and start a word, that is, come first or right after a space.
   * `atStart` says whether the text before `s` ended a word.
   */
  function WordStarts(s: string, atStart: bool): string {
    if s == [] then ""
    else if s[0] == ' ' then WordStarts(s[1..], true)
    else (if atStart then [s[0]] else "") + WordStarts(s[1..], false)
  }

  lemma {:induction false} FirstsOfSplit(s: string)
    ensures Firsts(SplitSpaces(s)) == WordStarts(s, true)
    ensures Firsts(SplitSpaces(s)[1..]) == WordStarts(s, false)
  {
    if s != [] {
      FirstsOfSplit(s[1..]);
      var rest := SplitSpaces(s[1..]);
      if s[0] == ' ' {
        assert ([""] + rest)[1..] == rest;
      } else {
        var parts := [[s[0]] + rest[0]] + rest[1..];
        assert parts[1..] == rest[1..];
      }
    }
  }

  /** The initials are the first characters of the words of the name, in order; empty words give nothing. */
  lemma InitialsAreWordStarts(name: string)
    ensures Initials(name) == WordStarts(name, true)
  {
    FirstsOfSplit(name);
  }

  /** Initials never contain a space and are never longer than the name. */
  lemma {:induction false} WordStartsBounds(s: string, atStart: bool)
    ensures |WordStarts(s, atStart)| <= |s|
    ensures ' ' !in WordStarts(s, atStart)
  {
    if s != [] {
      WordStartsBounds(s[1..], true);
      WordStartsBounds(s[1..], false);
    }
  }

  /** A name without spaces is one piece. */
  lemma {:induction false} NoSpaceIsOnePiece(word: string)
    requires ' ' !in word
    ensures SplitSpaces(word) == [word]
  {
    if word != [] {
      NoSpaceIsOnePiece(word[1..]);
      assert [word[0]] + word[1..] == word;
    }
  }

  /** A first and a last name separated by one space give their two first letters. */
  lemma InitialsOfTwoWords(first: string, last: string)
    requires first != [] && last != []
    requires ' ' !in first && ' ' !in last
    ensures Initials(first + " " + last) == [first[0], last[0]]
  {
    SplitAtSpace(first, last);
    NoSpaceIsOnePiece(last);
    var parts := [first, last];
    assert SplitSpaces(first + " " + last) == parts;
    assert parts[1..] == [last];
    assert Firsts([last]) == [last[0]];
  }

  /** The manager's avatar reads "SC". */
  lemma InitialsOfSarahChen()
    ensures Initials("Sarah Chen") == "SC"
  {
    var first, last := "Sarah", "Chen";
    assert ' ' !in first && ' ' !in last;
    InitialsOfTwoWords(first, last);
    assert first + " " + last == "Sarah Chen";
  }

  /** Doubled and trailing spaces add nothing to the initials. */
  lemma InitialsSkipEmptyWords()
    ensures Initials("A  B ") == "AB"
  {
    assert "A  B " == "A" + " " + " B ";
    assert " B " == "" + " " + "B ";
    assert "B " == "B" + " " + "";
    SplitAtSpace("B", "");
    SplitAtSpace("", "B ");
    SplitAtSpace("A", " B ");
    var parts := ["A", "", "B", ""];
    assert SplitSpaces("A  B ") == parts;
    assert parts[1..] == ["", "B", ""];
    assert parts[1..][1..] == ["B", ""];
    assert parts[1..][1..][1..] == [""];
    assert Firsts([""]) == "";
  }

  /** The participant strip shows AR for Alex Rivera. */
  lemma InitialsOfAlex()
    ensures Initials(Fixtures.Alex.name) == "AR"
  {
    var first, last := "Alex", "Rivera";
    assert ' ' !in first && ' ' !in last;
    InitialsOfTwoWords(first, last);
    assert first + " " + last == Fixtures.Alex.name;
  }

  /** The participant strip shows JK for Jordan Kim. */
  lemma InitialsOfJordan()
    ensures Initials(Fixtures.Jordan.name) == "JK"
  {
    var first, last := "Jordan", "Kim";
    assert ' ' !in first && ' ' !in last;
    InitialsOfTwoWords(first, last);
    assert first + " " + last == Fixtures.Jordan.name;
  }

  /** The participant strip shows TS for Taylor Smith. */
  lemma InitialsOfTaylor()
    ensures Initials(Fixtures.Taylor.name) == "TS"
  {
    var first, last := "Taylor", "Smith";
    assert ' ' !in first && ' ' !in last;
    InitialsOfTwoWords(first, last);
    assert first + " " + last == Fixtures.Taylor.name;
  }

  /** The seeded team's participant strip reads SC, AR, JK, TS, in order. */
  lemma TeamInitials()
    ensures |Fixtures.TeamMembers| == 4
    ensures Initials(Fixtures.TeamMembers[0].name) == "SC"
    ensures Initials(Fixtures.TeamMembers[1].name) == "AR"
    ensures Initials(Fixtures.TeamMembers[2].name) == "JK"
    ensures Initials(Fixtures.TeamMembers[3].name) == "TS"
  {
    InitialsOfSarahChen();
    InitialsOfAlex();
    InitialsOfJordan();
    InitialsOfTaylor();
  }

  class LiveMeeting {
    var elapsedTime: nat
    var detectedTasks: seq<DetectedTask>

    constructor ()
      ensures elapsedTime == InitialElapsed && detectedTasks == MockDetectedTasks
    {
      elapsedTime := InitialElapsed;
      detectedTasks := MockDetectedTasks;
    }

    /** One timer tick, every second. */
    method Tick()
      modifies this
      ensures elapsedTime == old(elapsedTime) + 1 && detectedTasks == old(detectedTasks)
    {
      elapsedTime := elapsedTime + 1;
    }

    method ToggleTaskConfirmation(id: string)
      modifies this
      ensures detectedTasks == Toggle(old(detectedTasks), id) && elapsedTime == old(elapsedTime)
    {
      detectedTasks := Toggle(detectedTasks, id);
    }
  }
}
