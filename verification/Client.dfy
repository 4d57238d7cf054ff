/** The client's half of a conversation: one request at a time over a pipe that may die at any byte,
    asked again at most once and only when nothing of it was heard. */
module Client {
  import opened Wrappers
  import opened Pcm
  import opened Seqs
  import opened Frames

  /** One connection, as far as the client can tell: the bytes that will arrive before it dies, how many
      it will still take, and how many it takes in one write at most. */
  datatype Connection = Connection(incoming: seq<byte>, room: nat, atOnce: nat, sent: seq<byte>)

  /** What the listener was given. */
  datatype Log = Log(heard: seq<seq<byte>>, events: seq<seq<byte>>, formats: seq<seq<byte>>)

  /** Whether the listener goes on after the audio it has heard so far. */
  type Listener = seq<seq<byte>> -> bool

  // ------------------------------------------------------------------------------------------
  // What an answer gives the listener
  // ------------------------------------------------------------------------------------------

  datatype Hearing = Hearing(log: Log, aborted: bool)

  function HearFrame(h: Hearing, f: Frame, goesOn: Listener): Hearing {
    if f.kind == FORMAT_KIND && |f.payload| >= 12 then h.(log := h.log.(formats := h.log.formats + [f.payload]))
    else if f.kind == AUDIO_KIND && !h.aborted && f.payload != [] then
      var heard := h.log.heard + [f.payload];
      Hearing(h.log.(heard := heard), !goesOn(heard))
    else if f.kind == EVENT_KIND && !h.aborted && |f.payload| >= 12 then
      h.(log := h.log.(events := h.log.events + [f.payload]))
    else h
  }

  function Hear(h: Hearing, fs: seq<Frame>, goesOn: Listener): Hearing
    decreases |fs|
  {
    if fs == [] then h else Hear(HearFrame(h, fs[0], goesOn), fs[1..], goesOn)
  }

  /** What one frame of an answer adds. */
  function AudioIn(f: Frame): seq<seq<byte>> { if f.kind == 104 && f.payload != [] then [f.payload] else [] }

  function EventIn(f: Frame): seq<seq<byte>> { if f.kind == 105 && |f.payload| >= 12 then [f.payload] else [] }

  function FormatIn(f: Frame): seq<seq<byte>> { if f.kind == 103 && |f.payload| >= 12 then [f.payload] else [] }

  /** The audio of an answer. */
  function AudioOf(fs: seq<Frame>): seq<seq<byte>> {
    if fs == [] then [] else AudioIn(fs[0]) + AudioOf(fs[1..])
  }

  /** Its events, and its formats: any with less in them than a whole one are no good. */
  function EventsOf(fs: seq<Frame>): seq<seq<byte>> {
    if fs == [] then [] else EventIn(fs[0]) + EventsOf(fs[1..])
  }

  function FormatsOf(fs: seq<Frame>): seq<seq<byte>> {
    if fs == [] then [] else FormatIn(fs[0]) + FormatsOf(fs[1..])
  }

  /** After a refusal only formats still get through. */
  lemma {:induction false} DeafButForFormats(h: Hearing, fs: seq<Frame>, goesOn: Listener)
    requires h.aborted
    ensures Hear(h, fs, goesOn) == h.(log := h.log.(formats := h.log.formats + FormatsOf(fs)))
    decreases |fs|
  {
    if fs != [] {
      DeafButForFormats(HearFrame(h, fs[0], goesOn), fs[1..], goesOn);
    }
  }

  lemma FrameIsHeard(h: Hearing, f: Frame, goesOn: Listener)
    requires !h.aborted
    ensures var r := HearFrame(h, f, goesOn);
            && r.log == Log(h.log.heard + AudioIn(f), h.log.events + EventIn(f), h.log.formats + FormatIn(f))
            && (r.aborted <==> AudioIn(f) != [] && !goesOn(r.log.heard))
  {
  }

  lemma FirstOf(fs: seq<Frame>, n: nat)
    requires 0 < n <= |fs|
    ensures AudioOf(fs[..n]) == AudioIn(fs[0]) + AudioOf(fs[1..][..n - 1])
    ensures EventsOf(fs[..n]) == EventIn(fs[0]) + EventsOf(fs[1..][..n - 1])
    ensures FormatsOf(fs) == FormatIn(fs[0]) + FormatsOf(fs[1..])
  {
    assert fs[..n][1..] == fs[1..][..n - 1];
  }

  lemma NoneOf()
    ensures AudioOf([]) == [] && EventsOf([]) == [] && FormatsOf([]) == []
  {
  }

  /** The listener is given all the audio and events of the first `n` frames, which is the whole answer or
      ends with the piece of audio it refused, and the formats of the whole answer. */
  lemma {:induction false} HearsUpTo(h: Hearing, fs: seq<Frame>, goesOn: Listener) returns (n: nat)
    requires !h.aborted
    ensures n <= |fs|
    ensures var r := Hear(h, fs, goesOn);
            && r.log.heard == h.log.heard + AudioOf(fs[..n]) && r.log.events == h.log.events + EventsOf(fs[..n])
            && r.log.formats == h.log.formats + FormatsOf(fs)
            && if r.aborted then n > 0 && fs[n - 1].kind == 104 && fs[n - 1].payload != [] && !goesOn(r.log.heard)
               else n == |fs|
    decreases |fs|
  {
    hide HearFrame, AudioOf, EventsOf, FormatsOf;
    NoneOf();
    n := 0;
    if fs == [] {
      assert fs[..0] == [];
    } else {
      FrameIsHeard(h, fs[0], goesOn);
      var next := HearFrame(h, fs[0], goesOn);
      if next.aborted {
        DeafButForFormats(next, fs[1..], goesOn);
        n := 1;
        FirstOf(fs, 1);
        assert fs[1..][..0] == [];
      } else {
        var m := HearsUpTo(next, fs[1..], goesOn);
        n := m + 1;
        FirstOf(fs, n);
        Assoc(h.log.heard, AudioIn(fs[0]), AudioOf(fs[1..][..m]));
        Assoc(h.log.events, EventIn(fs[0]), EventsOf(fs[1..][..m]));
      }
      Assoc(h.log.formats, FormatIn(fs[0]), FormatsOf(fs[1..]));
    }
  }

  /** The listener hears the answer's audio from the start, in order, up to and including the first piece
      it refuses. */
  lemma {:induction false} HearsAPrefix(h: Hearing, fs: seq<Frame>, goesOn: Listener)
    ensures var r := Hear(h, fs, goesOn);
            && h.log.heard <= r.log.heard <= h.log.heard + AudioOf(fs)
            && (!r.aborted ==> r.log.heard == h.log.heard + AudioOf(fs))
            && (h.aborted ==> r.aborted && r.log.heard == h.log.heard && r.log.events == h.log.events)
            && (!h.aborted ==> (r.aborted <==> r.log.heard != h.log.heard && !goesOn(r.log.heard)))
            && (forall k | |h.log.heard| < k < |r.log.heard| :: goesOn(r.log.heard[..k]))
    decreases |fs|
  {
    if fs != [] {
      var next := HearFrame(h, fs[0], goesOn);
      HearsAPrefix(next, fs[1..], goesOn);
      var r := Hear(h, fs, goesOn);
      var first := if fs[0].kind == AUDIO_KIND && fs[0].payload != [] then [fs[0].payload] else [];
      Assoc(h.log.heard, first, AudioOf(fs[1..]));
      if next.log.heard != h.log.heard {
        assert |next.log.heard| == |h.log.heard| + 1;
        assert r.log.heard[..|next.log.heard|] == next.log.heard;
      }
      assert h.log.heard <= next.log.heard;
    }
  }

  // ------------------------------------------------------------------------------------------
  // One request
  // ------------------------------------------------------------------------------------------

  /** What the client holds: its connection if it has one, those it will be given when it asks for one,
      the cancel event and the listener's log. */
  datatype Held = Held(pipe: Option<Connection>, supply: seq<Connection>, cancel: bool, log: Log)

  function Connected(s: Held): Held {
    if s.pipe.Some? || s.supply == [] then s else s.(pipe := Some(s.supply[0]), supply := s.supply[1..])
  }

  predicate Takes(c: Connection, request: Frame)
    requires request.Fits()
  {
    8 <= c.atOnce && |Spell(request)| <= c.room
  }

  datatype Result = Result(held: Held, ok: bool, done: Option<seq<byte>>)

  /** The answer read to its end. */
  function Listen(s: Held, goesOn: Listener): Result
    requires s.pipe.Some?
  {
    var a := AnswerIn(s.pipe.value.incoming);
    var h := Hear(Hearing(s.log, false), a.frames, goesOn);
    var t := s.(log := h.log, cancel := s.cancel || h.aborted, pipe := Some(s.pipe.value.(incoming := a.rest)));
    match a.ending
    case Died => Result(t.(pipe := None), false, None)
    case Refused => Result(t, false, None)
    case Finished(payload) => Result(t.(cancel := false), true, if |payload| >= 8 then Some(payload) else None)
  }

  /** One attempt on an open connection. */
  function Attempt(s: Held, request: Frame, goesOn: Listener): Result
    requires s.pipe.Some? && request.Fits()
  {
    var c := s.pipe.value;
    if !Takes(c, request) then Result(s.(pipe := None, cancel := false), false, None)
    else
      var asked := c.(sent := c.sent + Spell(request), room := c.room - |Spell(request)|);
      Listen(s.(pipe := Some(asked), cancel := false), goesOn)
  }

  /** speak(): twice at most. */
  function Speak(s: Held, request: Frame, goesOn: Listener, attempt: nat): Result
    requires request.Fits()
    decreases 2 - attempt
  {
    var s0 := Connected(s);
    if s0.pipe == None then Result(s0, false, None)
    else
      var r := Attempt(s0, request, goesOn);
      if r.ok || r.held.pipe.Some? || r.held.log.heard != s0.log.heard || attempt >= 1 then r
      else Speak(r.held, request, goesOn, attempt + 1)
  }

  // ------------------------------------------------------------------------------------------
  // The client itself
  // ------------------------------------------------------------------------------------------

  class WorkerClient {
    var held: Held
    const goesOn: Listener

    constructor (supply: seq<Connection>, goesOn: Listener)
      ensures held == Held(None, supply, false, Log([], [], [])) && this.goesOn == goesOn
    {
      held := Held(None, supply, false, Log([], [], []));
      this.goesOn := goesOn;
    }

    method EnsureConnected() returns (ok: bool)
      modifies this
      ensures held == Connected(old(held)) && (ok <==> held.pipe.Some?)
    {
      if held.pipe.Some? {
        return true;
      }
      if held.supply == [] {
        return false;
      }
      held := held.(pipe := Some(held.supply[0]), supply := held.supply[1..]);
      return true;
    }

    method Disconnect()
      modifies this
      ensures held == old(held).(pipe := None)
    {
      held := held.(pipe := None);
    }

    /** WriteFile: as much as the pipe takes at once; nothing once it is dead. */
    method Write(data: seq<byte>) returns (written: nat)
      requires held.pipe.Some?
      modifies this
      ensures var c := old(held.pipe.value);
              && written <= |data| && (written == |data| || written == c.atOnce || written == c.room)
              && written <= c.atOnce && written <= c.room
              && held == old(held).(pipe := Some(c.(sent := c.sent + data[..written], room := c.room - written)))
    {
      var c := held.pipe.value;
      written := |data|;
      if c.atOnce < written {
        written := c.atOnce;
      }
      if c.room < written {
        written := c.room;
      }
      held := held.(pipe := Some(c.(sent := c.sent + data[..written], room := c.room - written)));
    }

    /** ReadFile: between one byte and as many as asked for; nothing once the connection is dead. */
    method Read(most: nat) returns (got: seq<byte>)
      requires held.pipe.Some? && most > 0
      modifies this
      ensures var c := old(held.pipe.value);
              && |got| <= most && got <= c.incoming && (got == [] <==> c.incoming == [])
              && held == old(held).(pipe := Some(c.(incoming := c.incoming[|got|..])))
    {
      var c := held.pipe.value;
      if c.incoming == [] {
        return [];
      }
      var n: nat :| 0 < n <= most && n <= |c.incoming|;
      held := held.(pipe := Some(c.(incoming := c.incoming[n..])));
      return c.incoming[..n];
    }

    /** send: the whole frame, or false on a connection that did not take it. */
    method Send(f: Frame) returns (ok: bool)
      requires held.pipe.Some? && f.Fits()
      modifies this
      ensures ok <==> Takes(old(held.pipe.value), f)
      ensures held.pipe.Some? && held.(pipe := None) == old(held).(pipe := None)
      ensures ok ==> var c := old(held.pipe.value);
                     held.pipe.value == c.(sent := c.sent + Spell(f), room := c.room - |Spell(f)|)
    {
      hide Word;
      var written := Write(Header(f));
      if written != 8 {
        return false;
      }
      ghost var start := held.pipe.value;
      var p := f.payload;
      while p != []
        invariant held.pipe.Some? && held.(pipe := None) == old(held).(pipe := None)
        invariant |p| <= |f.payload| && p == f.payload[|f.payload| - |p|..]
        invariant |f.payload| - |p| <= start.room
        invariant held.pipe.value == start.(sent := start.sent + f.payload[..|f.payload| - |p|],
                                            room := start.room - (|f.payload| - |p|))
        decreases |p|
      {
        var k := |f.payload| - |p|;
        written := Write(p);
        if written == 0 {
          return false;
        }
        assert f.payload[..k] + p[..written] == f.payload[..k + written];
        Assoc(start.sent, f.payload[..k], p[..written]);
        p := p[written..];
      }
      assert f.payload[..|f.payload|] == f.payload;
      Assoc(old(held.pipe.value.sent), Header(f), f.payload);
      return true;
    }

    /** `count` bytes, however few at a time they come. */
    method ReadExactly(count: nat) returns (r: Option<seq<byte>>)
      requires held.pipe.Some?
      modifies this
      ensures var was := old(held.pipe.value.incoming);
              && r == (if count <= |was| then Some(was[..count]) else None)
              && var left := if count <= |was| then was[count..] else [];
              && held == old(held).(pipe := Some(old(held.pipe.value).(incoming := left)))
    {
      ghost var was := held.pipe.value.incoming;
      var bytes: seq<byte> := [];
      while |bytes| < count
        invariant held.pipe.Some? && |bytes| <= count && |bytes| <= |was|
        invariant bytes == was[..|bytes|]
        invariant held == old(held).(pipe := Some(old(held.pipe.value).(incoming := was[|bytes|..])))
        decreases count - |bytes|
      {
        var got := Read(count - |bytes|);
        if got == [] {
          return None;
        }
        SliceTwice(was, |bytes|, |got|);
        bytes := bytes + got;
      }
      return Some(bytes);
    }

    /** read_frame: the next frame, over any pattern of short reads. */
    method ReadFrame() returns (r: Option<Frame>)
      requires held.pipe.Some?
      modifies this
      ensures var was := ReadOne(old(held.pipe.value.incoming));
              && r == (if was.Whole? then Some(was.frame) else None)
              && var left := if was.Whole? then was.rest else [];
              && held == old(held).(pipe := Some(old(held.pipe.value).(incoming := left)))
    {
      hide NumberIn;
      ghost var was := held.pipe.value.incoming;
      var header := ReadExactly(8);
      if header == None {
        return None;
      }
      var kind, size := NumberIn(header.value[..4]), NumberIn(header.value[4..]);
      assert was[..8][..4] == was[..4] && was[..8][4..] == was[4..8];
      var payload := ReadExactly(size);
      if payload == None {
        return None;
      }
      SliceTwice(was, 8, size);
      return Some(Frame(kind, payload.value));
    }

    /** stream_utterance: every frame of the answer, and no byte after it. */
    method StreamUtterance() returns (ok: bool, done: Option<seq<byte>>)
      requires held.pipe.Some?
      modifies this
      ensures Result(held, ok, done) == Listen(old(held), goesOn)
    {
      hide AnswerIn, ReadOne, Hear;
      var aborted := false;
      ghost var was := AnswerIn(held.pipe.value.incoming);
      ghost var heard := Hear(Hearing(held.log, false), was.frames, goesOn);
      while true
        invariant held.pipe.Some?
        invariant held == old(held).(log := held.log, cancel := old(held.cancel) || aborted,
                                     pipe := Some(old(held.pipe.value).(incoming := held.pipe.value.incoming)))
        invariant var a := AnswerIn(held.pipe.value.incoming);
                  && a.ending == was.ending && a.rest == was.rest
                  && Hear(Hearing(held.log, aborted), a.frames, goesOn) == heard
        decreases |held.pipe.value.incoming|
      {
        AnswerOneMore(held.pipe.value.incoming);
        ghost var before := Hearing(held.log, aborted);
        var next := ReadFrame();
        if next == None {
          HearNothing(before, goesOn);
          Disconnect();
          return false, None;
        }
        var f := next.value;
        if f.kind == ERROR_KIND {
          HearNothing(before, goesOn);
          return false, None;
        }
        if f.kind == DONE_KIND {
          HearNothing(before, goesOn);
          held := held.(cancel := false);
          return true, if |f.payload| >= 8 then Some(f.payload) else None;
        }
        HearOneMore(before, f, AnswerIn(held.pipe.value.incoming).frames, goesOn);
        if f.kind == FORMAT_KIND {
          if |f.payload| >= 12 {
            held := held.(log := held.log.(formats := held.log.formats + [f.payload]));
          }
        } else if f.kind == AUDIO_KIND {
          if !aborted && f.payload != [] {
            held := held.(log := held.log.(heard := held.log.heard + [f.payload]));
            if !goesOn(held.log.heard) {
              aborted := true;
              held := held.(cancel := true);
            }
          }
        } else if f.kind == EVENT_KIND {
          if !aborted && |f.payload| >= 12 {
            held := held.(log := held.log.(events := held.log.events + [f.payload]));
          }
        }
      }
    }

    /** speak. */
    method SpeakRequest(request: Frame) returns (ok: bool, done: Option<seq<byte>>)
      requires request.Fits()
      modifies this
      ensures Result(held, ok, done) == Speak(old(held), request, goesOn, 0)
    {
      hide Spell, Listen, Takes;
      var attempt: nat := 0;
      while attempt < 2
        invariant attempt <= 1
        invariant Speak(held, request, goesOn, attempt) == Speak(old(held), request, goesOn, 0)
        decreases 2 - attempt
      {
        var there := EnsureConnected();
        if !there {
          return false, None;
        }
        held := held.(cancel := false);
        var sent := Send(request);
        if !sent {
          Disconnect();
          if attempt == 0 {
            attempt := 1;
            continue;
          }
          return false, None;
        }
        var had := |held.log.heard|;
        ghost var before := held;
        ok, done := StreamUtterance();
        ListenOnlyAdds(before, goesOn);
        if ok || held.pipe.Some? || |held.log.heard| > had || attempt == 1 {
          return;
        }
        attempt := attempt + 1;
      }
      return false, None;
    }
  }

  lemma SliceTwice(s: seq<byte>, i: nat, n: nat)
    requires i <= |s| && n <= |s[i..]|
    ensures s[i..][..n] == s[i..i + n] && s[i..][n..] == s[i + n..] && s[..i] + s[i..][..n] == s[..i + n]
  {
  }

  lemma AnswerOneMore(s: seq<byte>)
    ensures match ReadOne(s)
            case Short => AnswerIn(s) == Answer([], Died, [])
            case Whole(f, rest) =>
              if f.kind == DONE_KIND then AnswerIn(s) == Answer([], Finished(f.payload), rest)
              else if f.kind == ERROR_KIND then AnswerIn(s) == Answer([], Refused, rest)
              else AnswerIn(s) == Answer([f] + AnswerIn(rest).frames, AnswerIn(rest).ending, AnswerIn(rest).rest)
  {
  }

  lemma ListenOnlyAdds(s: Held, goesOn: Listener)
    requires s.pipe.Some?
    ensures s.log.heard <= Listen(s, goesOn).held.log.heard
  {
    HearsAPrefix(Hearing(s.log, false), AnswerIn(s.pipe.value.incoming).frames, goesOn);
  }

  lemma HearNothing(h: Hearing, goesOn: Listener)
    ensures Hear(h, [], goesOn) == h
  {
  }

  lemma HearOneMore(h: Hearing, f: Frame, fs: seq<Frame>, goesOn: Listener)
    ensures Hear(h, [f] + fs, goesOn) == Hear(HearFrame(h, f, goesOn), fs, goesOn)
  {
  }

  // ------------------------------------------------------------------------------------------
  // What a request comes to
  // ------------------------------------------------------------------------------------------

  /** What died without being heard: it did not take the request, or broke off before any audio. */
  predicate DiedUnheard(c: Connection, request: Frame)
    requires request.Fits()
  {
    !Takes(c, request) || (AnswerIn(c.incoming).ending == Died && AudioOf(AnswerIn(c.incoming).frames) == [])
  }

  /** The connections there are: the one at hand, and those to be had. */
  function Connections(s: Held): seq<Connection> { (if s.pipe.Some? then [s.pipe.value] else []) + s.supply }

  /** How many of them a request is made on: one, and a second one if the first died unheard. */
  function Tries(s: Held, request: Frame): (n: nat)
    requires request.Fits()
    ensures n <= |Connections(s)|
  {
    var cs := Connections(s);
    if |cs| >= 2 && DiedUnheard(cs[0], request) then 2 else if cs != [] then 1 else 0
  }

  function HeardOn(c: Connection, log: Log, goesOn: Listener): seq<seq<byte>> {
    Hear(Hearing(log, false), AnswerIn(c.incoming).frames, goesOn).log.heard
  }

  lemma AttemptIs(s: Held, request: Frame, goesOn: Listener)
    requires s.pipe.Some? && request.Fits()
    ensures var c := s.pipe.value; var r := Attempt(s, request, goesOn);
            && s.log.heard <= r.held.log.heard
            && r.held.supply == s.supply
            && (!Takes(c, request) ==> !r.ok && r.held.pipe.None? && r.held.log == s.log)
            && (Takes(c, request) ==>
                  && r.held.log.heard == HeardOn(c, s.log, goesOn) <= s.log.heard + AudioOf(AnswerIn(c.incoming).frames)
                  && (r.ok <==> AnswerIn(c.incoming).ending.Finished?)
                  && (r.held.pipe.None? <==> AnswerIn(c.incoming).ending.Died?)
                  && (r.held.pipe.Some? ==> r.held.pipe.value.incoming == AnswerIn(c.incoming).rest
                                            && r.held.pipe.value.sent == c.sent + Spell(request)))
            && (r.held.log.heard == s.log.heard && AnswerIn(c.incoming).ending.Died? ==> DiedUnheard(c, request))
            && (r.ok ==> !r.held.cancel)
  {
    hide Spell, AnswerIn, Hear, AudioOf;
    var c := s.pipe.value;
    HearsAPrefix(Hearing(s.log, false), AnswerIn(c.incoming).frames, goesOn);
  }

  /** One attempt is left for good exactly when its connection died unheard. */
  lemma AttemptUnheard(s: Held, request: Frame, goesOn: Listener)
    requires s.pipe.Some? && request.Fits()
    ensures var r := Attempt(s, request, goesOn);
            !r.ok && r.held.pipe.None? && r.held.log.heard == s.log.heard <==> DiedUnheard(s.pipe.value, request)
  {
    hide Spell, AnswerIn, Hear, AudioOf;
    HearsAPrefix(Hearing(s.log, false), AnswerIn(s.pipe.value.incoming).frames, goesOn);
  }

  /** What comes of being asked on one connection, `heard` having been heard before. */
  ghost predicate CameOf(heard: seq<seq<byte>>, c: Connection, request: Frame, goesOn: Listener, r: Result)
    requires request.Fits()
  {
    var a := AnswerIn(c.incoming);
    if !Takes(c, request) then !r.ok && r.held.pipe.None? && r.held.log.heard == heard && !r.held.cancel
    else
      && heard <= r.held.log.heard <= heard + AudioOf(a.frames)
      && (forall k | |heard| < k < |r.held.log.heard| :: goesOn(r.held.log.heard[..k]))
      && (|r.held.log.heard| < |heard + AudioOf(a.frames)| ==> r.held.log.heard != heard && !goesOn(r.held.log.heard))
      && (r.ok <==> a.ending.Finished?) && (r.held.pipe.None? <==> a.ending.Died?)
      && (r.held.pipe.Some? ==>
            r.held.pipe.value.incoming == a.rest && r.held.pipe.value.sent == c.sent + Spell(request))
      && (r.ok ==> !r.held.cancel && r.done == if |a.ending.payload| >= 8 then Some(a.ending.payload) else None)
      && (!r.ok ==> (r.held.cancel <==> r.held.log.heard != heard && !goesOn(r.held.log.heard)))
  }

  lemma AttemptComesOf(s: Held, request: Frame, goesOn: Listener)
    requires s.pipe.Some? && request.Fits()
    ensures CameOf(s.log.heard, s.pipe.value, request, goesOn, Attempt(s, request, goesOn))
  {
    hide Spell, AnswerIn, Hear, AudioOf;
    HearsAPrefix(Hearing(s.log, false), AnswerIn(s.pipe.value.incoming).frames, goesOn);
  }

  lemma AlsoCameOf(heard: seq<seq<byte>>, c: Connection, request: Frame, goesOn: Listener, r: Result, t: Result)
    requires request.Fits() && CameOf(heard, c, request, goesOn, r) && !r.ok && r.held.pipe.None?
    requires !t.ok && t.held.pipe.None? && t.held.log.heard == r.held.log.heard && t.held.cancel == r.held.cancel
    ensures CameOf(heard, c, request, goesOn, t)
  {
  }

  /** A request is made on the first connection there is and, exactly when that died with nothing heard,
      on the next: those are used up and no other, and what came of the last is what comes of the request.
      So no line is begun twice, and none is given up that could be asked for again. */
  lemma HeardFromOneAttempt(s: Held, request: Frame, goesOn: Listener)
    requires request.Fits()
    ensures var r, cs, n := Speak(s, request, goesOn, 0), Connections(s), Tries(s, request);
            && r.held.supply == cs[n..]
            && (n == 0 ==> !r.ok && r.held.pipe.None? && r.held.log == s.log)
            && (n > 0 ==> CameOf(s.log.heard, cs[n - 1], request, goesOn, r))
  {
    hide Attempt, Takes, DiedUnheard, CameOf;
    var s0, cs := Connected(s), Connections(s);
    if s0.pipe.Some? {
      assert s0.pipe.value == cs[0] && s0.supply == cs[1..];
      AttemptIs(s0, request, goesOn);
      AttemptUnheard(s0, request, goesOn);
      AttemptComesOf(s0, request, goesOn);
      var r := Attempt(s0, request, goesOn);
      if DiedUnheard(cs[0], request) && |cs| >= 2 {
        var s1 := Connected(r.held);
        assert s1.pipe.value == cs[1] && s1.supply == cs[2..];
        AttemptIs(s1, request, goesOn);
        AttemptComesOf(s1, request, goesOn);
      } else if DiedUnheard(cs[0], request) {
        AlsoCameOf(s.log.heard, cs[0], request, goesOn, r, Speak(r.held, request, goesOn, 1));
      }
    }
  }

  /** When speak succeeds, the request was sent whole and the answer was read up to and including its
      last frame and no further, even if the listener refused audio on the way; so the next request on
      the same connection starts on a frame boundary, with the cancel event reset. */
  lemma SuccessEndsOnAFrame(s: Held, request: Frame, goesOn: Listener)
    requires request.Fits()
    ensures var r, cs, n := Speak(s, request, goesOn, 0), Connections(s), Tries(s, request);
            && (r.ok <==> n > 0 && Takes(cs[n - 1], request) && AnswerIn(cs[n - 1].incoming).ending.Finished?)
            && (r.ok ==>
                  && r.held.pipe.Some? && !r.held.cancel
                  && r.held.pipe.value.incoming == AnswerIn(cs[n - 1].incoming).rest
                  && r.held.pipe.value.sent == cs[n - 1].sent + Spell(request))
  {
    hide Speak, Takes, AudioOf, AnswerIn, Spell;
    HeardFromOneAttempt(s, request, goesOn);
  }

  /** A connection that dies unheard costs the listener nothing: with another at hand that carries a whole
      answer, that answer is what is heard, and the pipe is left at the next. */
  lemma AskedAgain(s: Held, request: Frame, goesOn: Listener, first: Connection, second: Connection,
                   others: seq<Connection>, fs: seq<Frame>, done: Frame, more: seq<byte>)
    requires request.Fits() && Middle(fs) && done.Fits() && done.kind == 106
    requires Connections(s) == [first, second] + others
    requires DiedUnheard(first, request) && Takes(second, request)
    requires second.incoming == SpellAll(fs) + Frames.Spell(done) + more
    ensures var r := Speak(s, request, goesOn, 0);
            && r.ok && r.held.supply == others && !r.held.cancel
            && r.held.pipe.Some? && r.held.pipe.value.incoming == more
            && r.held.pipe.value.sent == second.sent + Spell(request)
            && s.log.heard <= r.held.log.heard <= s.log.heard + AudioOf(fs)
            && (|r.held.log.heard| < |s.log.heard + AudioOf(fs)| ==> !goesOn(r.held.log.heard))
            && (|done.payload| >= 8 ==> r.done == Some(done.payload))
  {
    hide Speak, Spell, AnswerIn, AudioOf, SpellAll, Takes, DiedUnheard;
    AnswerReadsBack(fs, done, more);
    HeardFromOneAttempt(s, request, goesOn);
  }

  /** Client and worker together: on a connection that carries a whole answer, the listener gets that
      answer and the pipe is left at the next. */
  lemma AnswersMeetRequests(s: Held, request: Frame, goesOn: Listener, fs: seq<Frame>, done: Frame, more: seq<byte>)
    requires request.Fits() && Middle(fs) && done.Fits() && done.kind == DONE_KIND
    requires s.pipe.Some? && Takes(s.pipe.value, request)
    requires s.pipe.value.incoming == SpellAll(fs) + Frames.Spell(done) + more
    ensures var r := Speak(s, request, goesOn, 0);
            && r.ok && r.held.pipe.Some? && r.held.pipe.value.incoming == more
            && s.log.heard <= r.held.log.heard <= s.log.heard + AudioOf(fs)
            && (|r.held.log.heard| < |s.log.heard + AudioOf(fs)| ==> !goesOn(r.held.log.heard))
            && (|done.payload| >= 8 ==> r.done == Some(done.payload))
  {
    hide Spell, AnswerIn, Hear, AudioOf, SpellAll;
    AnswerReadsBack(fs, done, more);
    HearsAPrefix(Hearing(s.log, false), fs, goesOn);
  }
}
