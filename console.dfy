/**
 * The host side of the console bridge: the `message` listener that accepts
 * only messages carrying the protocol marker, picks a colour for the
 * message's type, and appends one rendered line to the console body.
 */
module Console {
  import opened Wrappers
  import opened Template

  /**
   * The `data` of an incoming message, as far as the listener looks at it:
   * either a falsy value, or an object with the truthiness of its marker
   * field, its `type` (called `severity` here), and its `args` when they are an array (`None` when
   * they are missing or have no `join`).
   */
  datatype Data = Falsy | Object(marker: bool, severity: string, args: Option<seq<string>>)

  /** One line of the console: arrival time, type label, its colour, the joined arguments. */
  datatype Entry = Entry(time: string, severity: string, color: string, text: string)

  /** What one message does: nothing, a thrown error before the append, or one appended line. */
  datatype Outcome = Ignored | Threw | Appended(entry: Entry)

  /** One message as it arrives, with the time the host reads when it does. */
  datatype Arrival = Arrival(data: Data, time: string)

  // The colours of the type labels; any type without its own colour gets the log colour.

  const LogColor: string := "#00e5ff"
  const ErrorColor: string := "#ff6b6b"
  const WarnColor: string := "#ffd93d"
  const InfoColor: string := "#6a9eff"
  const DebugColor: string := "#a78bfa"

  /** The types with a colour of their own. */
  const Severities: map<string, string> :=
    map["error" := ErrorColor, "warn" := WarnColor, "info" := InfoColor, "debug" := DebugColor]

  /** The colour of a type label, chosen by comparing the type with each severity in turn. */
  function TypeColor(severity: string): (color: string)
    ensures color == if severity in Severities then Severities[severity] else LogColor
  {
    if severity == "error" then ErrorColor
    else if severity == "warn" then WarnColor
    else if severity == "info" then InfoColor
    else if severity == "debug" then DebugColor
    else LogColor
  }

  /**
   * The five colours tell the severities apart: a type gets the log colour
   * exactly when it is not one of the other four, and those four get four
   * different colours.
   */
  lemma ColorsDistinguishSeverities(severity: string, other: string)
    ensures TypeColor(severity) == LogColor <==> severity !in Severities
    ensures severity in Severities && other in Severities ==>
      (TypeColor(severity) == TypeColor(other) <==> severity == other)
  {
    // The fourth characters of the five colours differ pairwise.
    assert LogColor[3] == 'e' && ErrorColor[3] == '6' && WarnColor[3] == 'd';
    assert InfoColor[3] == '9' && DebugColor[3] == '8';
  }

  /** JavaScript's `Array.prototype.join`: the parts with `sep` between each two of them. */
  function Join(parts: seq<string>, sep: string): (r: string)
    ensures |parts| == 1 ==> r == parts[0]
    ensures |parts| == 0 ==> r == ""
  {
    if parts == [] then ""
    else if |parts| == 1 then parts[0]
    else parts[0] + sep + Join(parts[1..], sep)
  }

  /** Cuts a text at every occurrence of `c`: the inverse of joining with `c`. */
  function Split(s: string, c: char): (parts: seq<string>)
    ensures |parts| >= 1
    ensures forall k :: 0 <= k < |parts| ==> c !in parts[k]
  {
    if s == [] then [""]
    else if s[0] == c then [""] + Split(s[1..], c)
    else
      var rest := Split(s[1..], c);
      [[s[0]] + rest[0]] + rest[1..]
  }

  /** Joining the pieces of a split gives back the text. */
  lemma {:induction false} JoinSplit(s: string, c: char)
    ensures Join(Split(s, c), [c]) == s
  {
    if s != [] {
      var rest := Split(s[1..], c);
      JoinSplit(s[1..], c);
      if s[0] == c {
        assert Split(s, c)[1..] == rest;
        assert s == [c] + s[1..];
      } else {
        var parts := Split(s, c);
        assert parts[1..] == rest[1..];
        if |rest| == 1 {
          assert s == [s[0]] + s[1..];
        } else {
          assert rest == [rest[0]] + rest[1..];
          assert Join(rest, [c]) == rest[0] + [c] + Join(rest[1..], [c]);
          assert s == [s[0]] + s[1..];
        }
      }
    }
  }

  /** A piece free of `c` followed by `c` splits off as one piece. */
  lemma {:induction false} SplitAfterPiece(p: string, c: char, rest: string)
    requires c !in p
    ensures Split(p + [c] + rest, c) == [p] + Split(rest, c)
  {
    if p == [] {
      assert p + [c] + rest == [c] + rest;
      assert ([c] + rest)[1..] == rest;
    } else {
      var s := p + [c] + rest;
      assert s[0] == p[0] && s[1..] == p[1..] + [c] + rest;
      SplitAfterPiece(p[1..], c, rest);
      assert [p[0]] + p[1..] == p;
    }
  }

  /** A text free of `c` is a single piece. */
  lemma {:induction false} SplitWhole(p: string, c: char)
    requires c !in p
    ensures Split(p, c) == [p]
  {
    if p != [] {
      SplitWhole(p[1..], c);
      assert [p[0]] + p[1..] == p;
    }
  }

  /** Splitting a join of at least one part, none containing `c`, gives back the parts. */
  lemma {:induction false} SplitJoin(parts: seq<string>, c: char)
    requires |parts| >= 1
    requires forall k :: 0 <= k < |parts| ==> c !in parts[k]
    ensures Split(Join(parts, [c]), c) == parts
  {
    if |parts| == 1 {
      SplitWhole(parts[0], c);
    } else {
      SplitJoin(parts[1..], c);
      SplitAfterPiece(parts[0], c, Join(parts[1..], [c]));
      assert [parts[0]] + parts[1..] == parts;
    }
  }

  /** The separator the listener joins the arguments with. */
  const Space: string := " "

  /** The argument list of the protocol's example warning joins to `x 1`. */
  lemma JoinedArgsExample()
    ensures Join(["x", "1"], Space) == "x 1"
    ensures Split("x 1", ' ') == ["x", "1"]
  {
    assert ["x", "1"][1..] == ["1"];
    SplitJoin(["x", "1"], ' ');
  }

  /** The line the listener renders for a message it accepts. */
  function EntryFor(severity: string, args: seq<string>, time: string): (e: Entry)
    ensures e.time == time && e.severity == severity
    ensures e.text == Join(args, Space)
    ensures e.color == (if severity in Severities then Severities[severity] else LogColor)
    ensures args != [] && (forall k :: 0 <= k < |args| ==> ' ' !in args[k]) ==> Split(e.text, ' ') == args
  {
    var e := Entry(time, severity, TypeColor(severity), Join(args, Space));
    if args != [] && (forall k :: 0 <= k < |args| ==> ' ' !in args[k]) then
      SplitJoin(args, ' ');
      e
    else e
  }

  /**
   * The listener on one message: a falsy message or one whose marker is
   * falsy is ignored; for a marked one it picks the colour, and joining the
   * arguments either throws (no array to join), before anything is appended,
   * or gives the one line that is appended.
   */
  function Handle(data: Data, time: string): (o: Outcome)
    ensures o == Ignored <==> data.Falsy? || !data.marker
    ensures o == Threw <==> data.Object? && data.marker && data.args == None
    ensures o.Appended? ==> o.entry == EntryFor(data.severity, data.args.value, time)
  {
    if data.Falsy? || !data.marker then Ignored
    else if data.args.None? then Threw
    else Appended(EntryFor(data.severity, data.args.value, time))
  }

  /** The messages that append a line. */
  predicate Accepted(data: Data)
    ensures forall time :: Accepted(data) <==> Handle(data, time).Appended?
  {
    data.Object? && data.marker && data.args.Some?
  }

  /** The log after one message: the old log, with the message's line appended when it has one. */
  function Step(log: seq<Entry>, data: Data, time: string): (r: seq<Entry>)
    ensures |r| == |log| + (if Accepted(data) then 1 else 0)
    ensures r[..|log|] == log
    ensures Accepted(data) ==> r[|log|] == EntryFor(data.severity, data.args.value, time)
  {
    match Handle(data, time)
    case Appended(e) => log + [e]
    case _ => log
  }

  /** The log after a run of messages, one step each, in arrival order. */
  function Replay(log: seq<Entry>, arrivals: seq<Arrival>): (r: seq<Entry>)
    ensures |log| <= |r| <= |log| + |arrivals|
    decreases |arrivals|
  {
    if arrivals == [] then log
    else Replay(Step(log, arrivals[0].data, arrivals[0].time), arrivals[1..])
  }

  /** The lines a run of messages renders: one per accepted message, in arrival order. */
  function Rendered(arrivals: seq<Arrival>): (lines: seq<Entry>)
    ensures |lines| <= |arrivals|
  {
    if arrivals == [] then []
    else
      LineOf(arrivals[0]) + Rendered(arrivals[1..])
  }

  /** The lines one message renders: its line when it is accepted, none otherwise. */
  function LineOf(a: Arrival): seq<Entry>
  {
    if Accepted(a.data) then [EntryFor(a.data.severity, a.data.args.value, a.time)] else []
  }

  lemma StepAppendsLine(log: seq<Entry>, a: Arrival)
    ensures Step(log, a.data, a.time) == log + LineOf(a)
  {
    if !Accepted(a.data) {
      assert log + LineOf(a) == log;
    }
  }

  /** Replaying messages only appends: the old log, then the rendered lines, nothing removed or changed. */
  lemma {:induction false} ReplayAppends(log: seq<Entry>, arrivals: seq<Arrival>)
    ensures Replay(log, arrivals) == log + Rendered(arrivals)
    decreases |arrivals|
  {
    if arrivals != [] {
      var a, rest := arrivals[0], arrivals[1..];
      var next := Step(log, a.data, a.time);
      assert Replay(log, arrivals) == Replay(next, rest);
      ReplayAppends(next, rest);
      StepAppendsLine(log, a);
      assert Rendered(arrivals) == LineOf(a) + Rendered(rest);
      AppendAssoc(log, LineOf(a), Rendered(rest));
    }
  }

  /** When every message is accepted, the log gains exactly one line per message, in arrival order. */
  lemma {:induction false} AllAcceptedLogged(arrivals: seq<Arrival>)
    requires forall k :: 0 <= k < |arrivals| ==> Accepted(arrivals[k].data)
    ensures |Rendered(arrivals)| == |arrivals|
    ensures forall k :: 0 <= k < |arrivals| ==>
      && Accepted(arrivals[k].data)
      && Rendered(arrivals)[k] == EntryFor(arrivals[k].data.severity, arrivals[k].data.args.value, arrivals[k].time)
  {
    if arrivals != [] {
      AllAcceptedLogged(arrivals[1..]);
      var a := arrivals[0];
      assert Rendered(arrivals) == [EntryFor(a.data.severity, a.data.args.value, a.time)] + Rendered(arrivals[1..]);
    }
  }

  /** Messages without the marker leave the log as it was. */
  lemma {:induction false} UnmarkedIgnored(log: seq<Entry>, arrivals: seq<Arrival>)
    requires forall k :: 0 <= k < |arrivals| ==> !Accepted(arrivals[k].data)
    ensures Replay(log, arrivals) == log
  {
    ReplayAppends(log, arrivals);
    NoneRendered(arrivals);
  }

  lemma {:induction false} NoneRendered(arrivals: seq<Arrival>)
    requires forall k :: 0 <= k < |arrivals| ==> !Accepted(arrivals[k].data)
    ensures Rendered(arrivals) == []
  {
    if arrivals != [] {
      NoneRendered(arrivals[1..]);
    }
  }

  /** A marked warning with arguments `["x", "1"]` adds exactly one line, labelled `warn`, reading `x 1`. */
  lemma WarnExample(log: seq<Entry>, time: string)
    ensures Step(log, Object(true, "warn", Some(["x", "1"])), time)
         == log + [Entry(time, "warn", WarnColor, "x 1")]
  {
    JoinedArgsExample();
    var r := Step(log, Object(true, "warn", Some(["x", "1"])), time);
    assert r == r[..|log|] + [r[|log|]];
  }

  // The markup of a line: a template literal with four substitutions.

  const TimeOpen: string := "<span style=\"opacity:.6;color:#888\">["
  const TimeClose: string := "]</span> <span style=\"color:"
  const LabelOpen: string := ";font-weight:600\">"
  const LabelClose: string := "</span>: <span style=\"color:#cfefff\">"
  const TextClose: string := "</span>"

  const LineStrings: seq<string> := [TimeOpen, TimeClose, LabelOpen, LabelClose, TextClose]

  /** The markup the listener assigns to the line's `innerHTML`. */
  function Markup(e: Entry): (m: string)
    ensures Occurs(m, TimeOpen, 0)
    ensures |m| == |TimeOpen| + |TimeClose| + |LabelOpen| + |LabelClose| + |TextClose|
                 + |e.time| + |e.color| + |e.severity| + |e.text|
  {
    var values := [e.time, e.color, e.severity, e.text];
    FillLength(LineStrings, values);
    assert StringAt(LineStrings, values, 1) == |TimeOpen| + |e.time|;
    assert StringAt(LineStrings, values, 2) == StringAt(LineStrings, values, 1) + |TimeClose| + |e.color|;
    assert StringAt(LineStrings, values, 3) == StringAt(LineStrings, values, 2) + |LabelOpen| + |e.severity|;
    assert StringAt(LineStrings, values, 4) == StringAt(LineStrings, values, 3) + |LabelClose| + |e.text|;
    Fill(LineStrings, [e.time, e.color, e.severity, e.text])
  }

  /** The markup shows the type label and the joined arguments verbatim, the label first. */
  lemma MarkupShows(e: Entry)
    ensures var labelAt := |TimeOpen| + |e.time| + |TimeClose| + |e.color| + |LabelOpen|;
      && Occurs(Markup(e), e.severity, labelAt)
      && Occurs(Markup(e), e.text, labelAt + |e.severity| + |LabelClose|)
  {
    var values := [e.time, e.color, e.severity, e.text];
    assert StringAt(LineStrings, values, 1) == |TimeOpen| + |e.time|;
    assert StringAt(LineStrings, values, 2) == |TimeOpen| + |e.time| + |TimeClose| + |e.color|;
    assert StringAt(LineStrings, values, 3) == StringAt(LineStrings, values, 2) + |LabelOpen| + |e.severity|;
    FillValuePart(LineStrings, values, 2);
    FillValuePart(LineStrings, values, 3);
  }

  /** The markup loses nothing: reading it back with the field lengths gives the line's four fields. */
  lemma MarkupReadsBack(e: Entry)
    ensures Unfill(LineStrings, Markup(e), [|e.time|, |e.color|, |e.severity|, |e.text|])
         == Some([e.time, e.color, e.severity, e.text])
  {
    UnfillFill(LineStrings, [e.time, e.color, e.severity, e.text], [|e.time|, |e.color|, |e.severity|, |e.text|]);
  }

  /** The console body: its lines and its scroll position. */
  class ConsoleBody {
    var entries: seq<Entry>
    var scrollTop: int

    constructor ()
      ensures entries == [] && scrollTop == 0
    {
      entries := [];
      scrollTop := 0;
    }

    /**
     * The `message` listener on one message, with the arrival time and the
     * body's scroll height after the append as inputs: the line is appended
     * and the body scrolled to the bottom, or nothing changes.
     */
    method Receive(data: Data, time: string, scrollHeight: int) returns (outcome: Outcome)
      modifies this
      ensures outcome == Handle(data, time)
      ensures entries == Step(old(entries), data, time)
      ensures scrollTop == if outcome.Appended? then scrollHeight else old(scrollTop)
    {
      if data.Falsy? || !data.marker {
        return Ignored;
      }
      var color := TypeColor(data.severity);
      if data.args.None? {
        return Threw;
      }
      var e := Entry(time, data.severity, color, Join(data.args.value, Space));
      entries := entries + [e];
      scrollTop := scrollHeight;
      outcome := Appended(e);
    }
  }
}
