/** The pure part of the inquiry page (`App.tsx`): parsing the model's reply
    into a list of inquiries, the capped most-recent-first history, and the
    history badge. */
module Inquiries {
  import opened Text

  /** A saved search: the topic and the inquiries generated for it. */
  datatype Inquiry = Inquiry(id: int, topic: string, questions: seq<string>, timestamp: int)

  /** The number of searches the history keeps. */
  const HistoryLimit: nat := 50

  /** `.map(line => line.trim())` */
  function TrimAll(lines: seq<string>): (r: seq<string>)
    ensures |r| == |lines|
    ensures forall i :: 0 <= i < |r| ==> r[i] == Trim(lines[i])
  {
    seq(|lines|, i requires 0 <= i < |lines| => Trim(lines[i]))
  }

  /** `line.startsWith('-')` */
  predicate IsBullet(line: string) {
    StartsWith(line, "-")
  }

  /** `.filter(line => line.startsWith('-'))` */
  function KeepBullets(lines: seq<string>): (r: seq<string>)
    ensures |r| <= |lines|
    ensures forall k :: 0 <= k < |r| ==> IsBullet(r[k])
  {
    if |lines| == 0 then []
    else (if IsBullet(lines[0]) then [lines[0]] else []) + KeepBullets(lines[1..])
  }

  /** `line.substring(1).trim()`: the line without its first character, trimmed. */
  function Strip(line: string): string {
    Trim(if |line| == 0 then "" else line[1..])
  }

  /** `.map(line => line.substring(1).trim())` */
  function StripAll(lines: seq<string>): (r: seq<string>)
    ensures |r| == |lines|
    ensures forall i :: 0 <= i < |r| ==> r[i] == Strip(lines[i])
  {
    seq(|lines|, i requires 0 <= i < |lines| => Strip(lines[i]))
  }

  /** The inquiries of a reply: split into lines, trimmed, the lines starting
      with a dash kept, the dash dropped and the rest trimmed again. No
      inquiry starts or ends with whitespace, and there are at most as many
      inquiries as lines. */
  function ParseInquiries(text: string): (r: seq<string>)
    ensures |r| <= Count(text, '\n') + 1
    ensures forall k :: 0 <= k < |r| ==> r[k] == [] || (!IsWhitespace(r[k][0]) && !IsWhitespace(r[k][|r[k]| - 1]))
  {
    StripAll(KeepBullets(TrimAll(Split(text, '\n'))))
  }

  /** A line of the reply is an inquiry when, trimmed, it starts with a dash. */
  predicate BulletLine(line: string) {
    IsBullet(Trim(line))
  }

  /** The inquiry such a line gives. */
  function BulletText(line: string): string {
    Strip(Trim(line))
  }

  /** Every position moved one place on. */
  function Shift(idx: seq<nat>): (r: seq<nat>)
    ensures |r| == |idx| && forall k :: 0 <= k < |r| ==> r[k] == idx[k] + 1
  {
    seq(|idx|, k requires 0 <= k < |idx| => idx[k] + 1)
  }

  lemma ShiftMembers(idx: seq<nat>)
    ensures forall i: nat :: i in Shift(idx) <==> i > 0 && i - 1 in idx
    ensures 0 !in Shift(idx)
  {
    var r := Shift(idx);
    forall i: nat | i > 0 && i - 1 in idx ensures i in r {
      var k :| 0 <= k < |idx| && idx[k] == i - 1;
      assert r[k] == i;
    }
  }

  /** Positions of the kept lines, increasing: `head` is `[0]` when the first
      line is kept, followed by the positions found in the rest, moved on. */
  lemma ShiftedIncreasing(head: seq<nat>, rest: seq<nat>)
    requires head == [] || head == [0]
    requires forall k, l :: 0 <= k < l < |rest| ==> rest[k] < rest[l]
    ensures forall k, l :: 0 <= k < l < |head + Shift(rest)| ==> (head + Shift(rest))[k] < (head + Shift(rest))[l]
  {
  }

  lemma ShiftedSelects(lines: seq<string>, head: seq<nat>, rest: seq<nat>)
    requires |lines| > 0
    requires head == (if IsBullet(lines[0]) then [0] else [])
    requires |rest| == |KeepBullets(lines[1..])|
    requires forall k :: 0 <= k < |rest| ==> rest[k] < |lines[1..]| && KeepBullets(lines[1..])[k] == lines[1..][rest[k]]
    ensures |head + Shift(rest)| == |KeepBullets(lines)|
    ensures forall k :: 0 <= k < |head + Shift(rest)| ==>
      (head + Shift(rest))[k] < |lines| && KeepBullets(lines)[k] == lines[(head + Shift(rest))[k]]
  {
    var tail := KeepBullets(lines[1..]);
    if IsBullet(lines[0]) {
      assert KeepBullets(lines) == [lines[0]] + tail;
      ShiftSelects(lines, rest, tail, 1);
    } else {
      assert KeepBullets(lines) == tail;
      ShiftSelects(lines, rest, tail, 0);
    }
  }

  /** The positions `rest` select `tail` from `lines[1..]`; moved on by one,
      they select it from `lines`, behind `h` entries already placed. */
  lemma ShiftSelects(lines: seq<string>, rest: seq<nat>, tail: seq<string>, h: nat)
    requires |lines| > 0 && |rest| == |tail| && (h == 0 || h == 1)
    requires forall k :: 0 <= k < |rest| ==> rest[k] < |lines[1..]| && tail[k] == lines[1..][rest[k]]
    requires h == 1 ==> IsBullet(lines[0])
    ensures var idx := (if h == 1 then [0] else []) + Shift(rest);
      var kept := (if h == 1 then [lines[0]] else []) + tail;
      && |idx| == |kept|
      && forall k :: 0 <= k < |idx| ==> idx[k] < |lines| && kept[k] == lines[idx[k]]
  {
    var idx := (if h == 1 then [0] else []) + Shift(rest);
    var kept := (if h == 1 then [lines[0]] else []) + tail;
    forall k | h <= k < |idx| ensures idx[k] < |lines| && kept[k] == lines[idx[k]] {
      assert idx[k] == rest[k - h] + 1 && kept[k] == tail[k - h];
    }
  }

  lemma ShiftedComplete(lines: seq<string>, head: seq<nat>, rest: seq<nat>)
    requires |lines| > 0
    requires head == (if IsBullet(lines[0]) then [0] else [])
    requires forall i :: 0 <= i < |lines[1..]| ==> (IsBullet(lines[1..][i]) <==> i in rest)
    ensures forall i :: 0 <= i < |lines| ==> (IsBullet(lines[i]) <==> i in head + Shift(rest))
  {
    ShiftMembers(rest);
    forall i | 0 <= i < |lines| ensures IsBullet(lines[i]) <==> i in head + Shift(rest) {
      if i > 0 {
        assert lines[i] == lines[1..][i - 1];
      }
    }
  }

  /** The filter keeps exactly the bullet lines, in their original order:
      `idx` lists their positions, increasing. */
  lemma {:induction false} KeepBulletsPositions(lines: seq<string>) returns (idx: seq<nat>)
    ensures |idx| == |KeepBullets(lines)|
    ensures forall k :: 0 <= k < |idx| ==> idx[k] < |lines| && KeepBullets(lines)[k] == lines[idx[k]]
    ensures forall k, l :: 0 <= k < l < |idx| ==> idx[k] < idx[l]
    ensures forall i :: 0 <= i < |lines| ==> (IsBullet(lines[i]) <==> i in idx)
  {
    if |lines| == 0 {
      idx := [];
    } else {
      var rest := KeepBulletsPositions(lines[1..]);
      var head: seq<nat> := if IsBullet(lines[0]) then [0] else [];
      ShiftedIncreasing(head, rest);
      ShiftedSelects(lines, head, rest);
      ShiftedComplete(lines, head, rest);
      idx := head + Shift(rest);
    }
  }

  /** The parsed inquiries correspond one to one, in order, to the lines of
      the reply that are bullets; every other line is dropped. */
  lemma ParseCorrespondence(text: string) returns (idx: seq<nat>)
    ensures var lines := Split(text, '\n');
      var r := ParseInquiries(text);
      && |idx| == |r|
      && (forall k :: 0 <= k < |idx| ==> idx[k] < |lines| && BulletLine(lines[idx[k]]) && r[k] == BulletText(lines[idx[k]]))
      && (forall k, l :: 0 <= k < l < |idx| ==> idx[k] < idx[l])
      && (forall i :: 0 <= i < |lines| ==> (BulletLine(lines[i]) <==> i in idx))
  {
    var lines := Split(text, '\n');
    idx := KeepBulletsPositions(TrimAll(lines));
  }

  /** A line holding just a dash gives the empty inquiry. */
  lemma ParseBareDash()
    ensures ParseInquiries("-") == [""]
  {
    SplitNoSeparator("-", '\n');
    TrimPadded("", "-", "");
    TrimPadded("", "", "");
    assert "" + "-" + "" == "-";
    assert TrimAll(["-"]) == ["-"];
    assert KeepBullets(["-"]) == ["-"];
    assert Strip("-") == "";
  }

  /** `[newInquiry, ...history].slice(0, 50)`: the new entry first, then the
      older entries in their order; only the oldest beyond the limit are
      dropped. */
  function PushHistory(entry: Inquiry, history: seq<Inquiry>): (r: seq<Inquiry>)
    ensures |r| == if |history| < HistoryLimit then |history| + 1 else HistoryLimit
    ensures r[0] == entry && r[1..] == history[..|r| - 1]
  {
    var all := [entry] + history;
    if |all| <= HistoryLimit then all else all[..HistoryLimit]
  }

  /** A history that never exceeded the limit stays within it. */
  lemma PushHistoryBounded(entry: Inquiry, history: seq<Inquiry>)
    ensures |PushHistory(entry, history)| <= HistoryLimit
    ensures |history| < HistoryLimit ==> PushHistory(entry, history) == [entry] + history
  {
  }

  /** The history badge: the count itself up to nine, `9+` above. */
  function BadgeText(count: nat): (badge: string)
    ensures count > 9 ==> badge == "9+"
    ensures count <= 9 ==> |badge| == 1 && badge[0] as int - '0' as int == count
  {
    if count > 9 then "9+" else [('0' as int + count) as char]
  }
}
