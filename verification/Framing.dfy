/** internal/session/pump.go: cutting an agent's stdout into frames, one a line. */
module Framing {
  import opened Sequences

  type Byte = b: nat | b < 256

  const NEWLINE: Byte := 10
  const MAX_AGENT_FRAME_BYTES := 0x400_0000

  // ----- Lines -----

  /** The bytes before the first newline: all of them if there is none. */
  function LineLength(stream: seq<Byte>): (n: nat)
    ensures n <= |stream|
    ensures forall i | 0 <= i < n :: stream[i] != NEWLINE
    ensures n < |stream| ==> stream[n] == NEWLINE
  {
    if stream == [] || stream[0] == NEWLINE then 0 else 1 + LineLength(stream[1..])
  }

  predicate Fits(max: nat, line: seq<Byte>) {
    |line| <= max
  }

  /** The frames of a stream: its lines that fit, and what follows the last newline unless that is nothing. */
  function Frames(stream: seq<Byte>, max: nat): seq<seq<Byte>>
    decreases |stream|
  {
    var n := LineLength(stream);
    var frame := if Fits(max, stream[..n]) then [stream[..n]] else [];
    if n == |stream| then if n == 0 then [] else frame else frame + Frames(stream[n + 1..], max)
  }

  /** The stream that writes each line and ends it. */
  function Written(lines: seq<seq<Byte>>): seq<Byte> {
    if lines == [] then [] else lines[0] + [NEWLINE] + Written(lines[1..])
  }

  predicate OneLine(line: seq<Byte>) {
    NEWLINE !in line
  }

  lemma {:induction false} LineLengthOf(line: seq<Byte>, rest: seq<Byte>)
    requires OneLine(line)
    ensures LineLength(line + [NEWLINE] + rest) == |line|
    ensures LineLength(line) == |line|
  {
    var stream := line + [NEWLINE] + rest;
    assert stream[|line|] == NEWLINE;
    forall i | 0 <= i < |line| ensures stream[i] != NEWLINE && line[i] != NEWLINE { assert line[i] in line; }
  }

  lemma FramesStep(stream: seq<Byte>, max: nat)
    ensures var n := LineLength(stream);
      var frame := if Fits(max, stream[..n]) then [stream[..n]] else [];
      Frames(stream, max) == if n == |stream| then if n == 0 then [] else frame else frame + Frames(stream[n + 1..], max)
    ensures Frames([], max) == []
  {
  }

  /**
   * Reading back a stream of lines gives exactly those that fit, each whole, and in order: a line too long
   * is dropped whole and takes nothing else with it.
   */
  lemma {:induction false} FramesOfWritten(lines: seq<seq<Byte>>, tail: seq<Byte>, max: nat)
    requires (forall line | line in lines :: OneLine(line)) && OneLine(tail)
    ensures Frames(Written(lines) + tail, max)
      == Keep(lines, (line: seq<Byte>) => Fits(max, line)) + if tail != [] && Fits(max, tail) then [tail] else []
    decreases lines
  {
    hide Frames, LineLength, Fits, Keep;
    var p, last := (line: seq<Byte>) => Fits(max, line), if tail != [] && Fits(max, tail) then [tail] else [];
    FramesStep(Written(lines) + tail, max);
    if lines == [] {
      assert Written(lines) + tail == tail && tail[..|tail|] == tail;
      LineLengthOf(tail, []);
      KeepNone(lines, p);
    } else {
      var first, rest := lines[0], Written(lines[1..]) + tail;
      assert first in lines && forall line | line in lines[1..] :: line in lines;
      WrittenSplits(lines, tail);
      LineLengthOf(first, rest);
      FramesOfWritten(lines[1..], tail, max);
      var head, kept := if Fits(max, first) then [first] else [], Keep(lines[1..], p);
      KeepFirst(lines, p);
      assert head + (kept + last) == head + kept + last;
    }
  }

  lemma KeepFirst(lines: seq<seq<Byte>>, p: seq<Byte> -> bool)
    requires lines != []
    ensures Keep(lines, p) == (if p(lines[0]) then [lines[0]] else []) + Keep(lines[1..], p)
  {
  }

  lemma WrittenSplits(lines: seq<seq<Byte>>, tail: seq<Byte>)
    requires lines != []
    ensures var first, rest, stream := lines[0], Written(lines[1..]) + tail, Written(lines) + tail;
      stream == first + [NEWLINE] + rest && stream[..|first|] == first && stream[|first| + 1..] == rest
  {
  }

  // ----- Reading -----

  datatype ReadError = NoError | BufferFull | Ended

  /** A buffered reader over what is left of a stream; how much it buffers at a time may vary. */
  class Reader {
    var rest: seq<Byte>

    constructor (stream: seq<Byte>)
      ensures rest == stream
    {
      rest := stream;
    }

    /** The next bytes up to and with a newline, or as many as the buffer takes, or all that is left. */
    method ReadSlice() returns (fragment: seq<Byte>, error: ReadError)
      modifies this
      ensures old(rest) == fragment + rest
      ensures error.NoError? ==> fragment != [] && fragment[|fragment| - 1] == NEWLINE && OneLine(fragment[..|fragment| - 1])
      ensures !error.NoError? ==> OneLine(fragment)
      ensures error.BufferFull? ==> fragment != []
      ensures error.Ended? ==> rest == []
    {
      var size: nat :| size > 0;
      var n := LineLength(rest);
      if n < size && n < |rest| {
        fragment, error := rest[..n + 1], NoError;
      } else if size <= |rest| {
        fragment, error := rest[..size], BufferFull;
      } else {
        fragment, error := rest, Ended;
      }
      assert rest == rest[..|fragment|] + rest[|fragment|..];
      rest := rest[|fragment|..];
    }
  }

  lemma LineSplits(line: seq<Byte>, fragment: seq<Byte>, rest: seq<Byte>)
    requires OneLine(line) && fragment != [] && fragment[|fragment| - 1] == NEWLINE && OneLine(fragment[..|fragment| - 1])
    ensures var stream, n := line + (fragment + rest), |line| + |fragment| - 1;
      LineLength(stream) == n < |stream| && stream[..n] == line + fragment[..|fragment| - 1] && stream[n + 1..] == rest
  {
    var whole := line + fragment[..|fragment| - 1];
    assert line + (fragment + rest) == whole + [NEWLINE] + rest;
    LineLengthOf(whole, rest);
  }

  /**
   * Reads one line, however it is fragmented: whole if it fits, exactly max included, else not at all. Never
   * more than max bytes of it are kept.
   */
  method ReadStdoutFrame(r: Reader, max: nat) returns (frame: seq<Byte>, dropped: bool, ended: bool, ghost retained: nat)
    modifies r
    ensures var n := LineLength(old(r.rest));
      && dropped == !Fits(max, old(r.rest)[..n])
      && frame == (if dropped then [] else old(r.rest)[..n])
      && ended == (n == |old(r.rest)|)
      && r.rest == if ended then [] else old(r.rest)[n + 1..]
    ensures retained <= max
  {
    hide LineLength, OneLine;
    var buf: seq<Byte> := [];
    assert OneLine([]) by { NoLine(); }
    dropped, retained := false, 0;
    ghost var stream, line := r.rest, [];
    assert stream == line + r.rest;
    while true
      invariant stream == line + r.rest && OneLine(line)
      invariant dropped == (|line| > max) && buf == (if dropped then [] else line)
      invariant retained <= max
      decreases |r.rest|
    {
      var fragment, error := r.ReadSlice();
      if error.NoError? { LineSplits(line, fragment, r.rest); } else { LineGoesOn(line, fragment, r.rest); }
      var payload := fragment;
      if |fragment| > 0 && fragment[|fragment| - 1] == NEWLINE {
        payload := fragment[..|fragment| - 1];
      }
      if !dropped {
        var room := max - |buf|;
        if |payload| > room {
          dropped, buf := true, [];
        } else {
          buf := buf + payload;
        }
        retained := if retained < |buf| then |buf| else retained;
      }
      line := line + payload;
      if !error.BufferFull? {
        if error.Ended? { LineEnds(line); }
        return buf, dropped, error.Ended?, retained;
      }
    }
  }

  lemma NoLine()
    ensures OneLine([])
  {
  }

  lemma LineGoesOn(line: seq<Byte>, fragment: seq<Byte>, rest: seq<Byte>)
    requires OneLine(line) && OneLine(fragment)
    ensures OneLine(line + fragment) && line + (fragment + rest) == line + fragment + rest
    ensures fragment != [] ==> fragment[|fragment| - 1] != NEWLINE
  {
  }

  lemma LineEnds(line: seq<Byte>)
    requires OneLine(line)
    ensures LineLength(line) == |line| && line[..|line|] == line && line + [] == line
  {
    LineLengthOf(line, []);
  }

  /** Reads an agent's output to its end: the frames handed on are those of the whole stream. */
  method DrainStdout(r: Reader) returns (frames: seq<seq<Byte>>)
    modifies r
    ensures frames == Frames(old(r.rest), MAX_AGENT_FRAME_BYTES) && r.rest == []
  {
    hide Fits, Frames, LineLength;
    frames := [];
    ghost var all := Frames(r.rest, MAX_AGENT_FRAME_BYTES);
    var ended := false;
    while !ended
      invariant frames + Frames(r.rest, MAX_AGENT_FRAME_BYTES) == all
      invariant ended ==> r.rest == []
      decreases !ended, |r.rest|
    {
      var frame, dropped;
      ghost var retained;
      FramesStep(r.rest, MAX_AGENT_FRAME_BYTES);
      frame, dropped, ended, retained := ReadStdoutFrame(r, MAX_AGENT_FRAME_BYTES);
      if !dropped && (!ended || frame != []) {
        frames := frames + [frame];
      }
    }
    FramesStep([], MAX_AGENT_FRAME_BYTES);
    assert frames + [] == frames;
  }
}
