/** The one feed of events every attached screen reads, which drops a reader that
    falls too far behind and never stalls for one. Each method is one critical
    section, so what all of them keep holds over every interleaving. */
module Stream {
  import opened Text

  const SUBSCRIBER_BACKLOG := 256
  const MAX_SUBSCRIBERS := 32
  const STATE_FIELD := "state"
  const STATES := {"idle", "thinking", "using", "waiting", "paused"}

  datatype Kind =
    | Said | Command | Approve | Deny | Secret | Attach | Detach | Cancel | Show
    | Delta | Reply | Preview | Ask | Handoff | Status | Error | Shown
    | Unheard(word: string)

  datatype Envelope = Envelope(kind: Kind, text: string, fields: map<string, string>)

  datatype StreamError = StreamClosed | TooManyReaders | NotFromTheProgram | UnknownStatus

  predicate FromProgram(kind: Kind) {
    kind in {Delta, Reply, Preview, Ask, Handoff, Status, Error, Shown}
  }

  predicate StatusWordsFit(envelope: Envelope) {
    envelope.kind == Status && STATE_FIELD in envelope.fields ==> envelope.fields[STATE_FIELD] in STATES
  }

  /** What the stream has to say about the agent: nothing when it was given nothing,
      or a state word no screen knows. */
  function StatusToSend(fields: map<string, string>): Option<Envelope> {
    var status := Envelope(Status, "", fields);
    if fields != map[] && StatusWordsFit(status) then Some(status) else None
  }

  /** What only a screen sends: a message, a command, an answer to a question, a secret, a
      coming or going, a cancel, or a show. */
  predicate IsFromAScreen(kind: Kind) {
    kind.Said? || kind.Command? || kind.Approve? || kind.Deny? || kind.Secret? || kind.Attach? || kind.Detach?
    || kind.Cancel? || kind.Show?
  }

  predicate IsAStateWord(word: string) {
    word == "idle" || word == "thinking" || word == "using" || word == "waiting" || word == "paused"
  }

  /** The program sends every other kind there is, and a status may name only the five states. */
  lemma WhoSendsWhat(envelope: Envelope)
    ensures FromProgram(envelope.kind) <==> !IsFromAScreen(envelope.kind) && !envelope.kind.Unheard?
    ensures StatusWordsFit(envelope)
      <==> !(envelope.kind == Status && "state" in envelope.fields && !IsAStateWord(envelope.fields["state"]))
  {
  }

  predicate NothingToTell(fields: map<string, string>) {
    fields == map[] || ("state" in fields && !IsAStateWord(fields["state"]))
  }

  /** A new reader is told the status as it is, unless there is none or it names no state. */
  lemma WhatANewReaderIsTold(fields: map<string, string>)
    ensures StatusToSend(fields) == if NothingToTell(fields) then None else Some(Envelope(Status, "", fields))
  {
  }

  /** A reader's place in the stream: a channel of bounded length that is closed
      once, and why it ended. */
  class Subscription {
    var buffer: seq<Envelope>
    var open: bool
    var ended: bool
    var dropped: bool
    /** What the reader has received, its first status, and how much had been
        published when it subscribed. */
    ghost var delivered: seq<Envelope>
    ghost var first: seq<Envelope>
    ghost var from: nat

    ghost predicate Sound()
      reads this
    {
      (open <==> !ended) && (dropped ==> ended) && |buffer| <= SUBSCRIBER_BACKLOG
    }

    /** Everything that ever reached this reader's channel, in order. */
    ghost function Reached(): seq<Envelope>
      reads this
    {
      delivered + buffer
    }

    /** What the reader is owed: its first status and everything published since it
        subscribed. */
    ghost function Owed(published: seq<Envelope>): seq<Envelope>
      requires from <= |published|
      reads this
    {
      first + published[from..]
    }

    /** A live reader has no gap. */
    ghost predicate Live(published: seq<Envelope>)
      reads this
    {
      Sound() && !ended && from <= |published| && |first| <= 1 && Reached() == Owed(published)
    }

    /** One that left has a beginning of what it was owed. */
    ghost predicate Left(published: seq<Envelope>)
      reads this
    {
      Sound() && from <= |published| && |first| <= 1 && Reached() <= Owed(published)
    }

    lemma NewIsLive(published: seq<Envelope>)
      requires Sound() && !ended && from == |published| && |first| <= 1 && Reached() == first
      ensures Live(published)
    {
    }

    lemma OneMorePublished(published: seq<Envelope>, envelope: Envelope)
      requires Left(published) || Live(published)
      ensures Left(published + [envelope]) && Owed(published + [envelope]) == Owed(published) + [envelope]
    {
      assert (published + [envelope])[from..] == published[from..] + [envelope];
    }

    lemma LiveMayLeave(published: seq<Envelope>)
      requires Live(published)
      ensures Left(published)
    {
    }

    constructor (ghost from: nat)
      ensures Sound() && !ended && Reached() == [] && buffer == [] && first == [] && this.from == from
    {
      buffer, open, ended, dropped := [], true, false, false;
      delivered, first := [], [];
      this.from := from;
    }

    /** A send on a closed channel, or past its length, cannot happen. */
    method Send(envelope: Envelope)
      requires Sound() && open && |buffer| < SUBSCRIBER_BACKLOG
      modifies this`buffer
      ensures Sound() && buffer == old(buffer) + [envelope] && Reached() == old(Reached()) + [envelope]
    {
      buffer := buffer + [envelope];
    }

    /** Nor can a second close of it. */
    method CloseTheChannel()
      requires open
      modifies this`open
      ensures !open
    {
      open := false;
    }

    /** Ends the subscription once and records why the first time. */
    method Finish(dropped: bool)
      requires Sound()
      modifies this`open, this`ended, this`dropped
      ensures Sound() && ended && this.dropped == (if old(ended) then old(this.dropped) else dropped)
    {
      if ended {
        return;
      }
      CloseTheChannel();
      ended, this.dropped := true, dropped;
    }

    /** The reader takes the next event, learns the channel is closed and empty, or
        would have to wait. */
    method Receive() returns (event: Option<Envelope>, over: bool)
      requires Sound()
      modifies this`buffer, this`delivered
      ensures Sound() && Reached() == old(Reached())
      ensures event.Some? <==> old(buffer) != []
      ensures event.Some? ==> delivered == old(delivered) + [event.value]
      ensures over <==> old(buffer) == [] && !open
    {
      if buffer == [] {
        return None, !open;
      }
      event, over := Some(buffer[0]), false;
      delivered := delivered + [buffer[0]];
      buffer := buffer[1..];
    }
  }

  class Stream {
    var subscribers: set<Subscription>
    var closed: bool
    /** Every subscription there ever was, and everything ever published. */
    ghost var all: set<Subscription>
    ghost var published: seq<Envelope>

    ghost predicate Valid()
      reads this, all
    {
      && subscribers <= all && |subscribers| <= MAX_SUBSCRIBERS
      && (closed ==> subscribers == {})
      && (forall s | s in subscribers :: s.Live(published))
      && (forall s | s in all - subscribers :: s.Left(published))
    }

    constructor ()
      ensures Valid() && subscribers == all == {} && published == [] && !closed
    {
      subscribers, all, published, closed := {}, {}, [], false;
    }

    /** A new reader is told at once how the agent is, when there is anything to
        say; there is always room for that. */
    method Subscribe(fields: map<string, string>) returns (subscribed: Result<Subscription, StreamError>)
      requires Valid()
      modifies this
      ensures Valid() && closed == old(closed) && published == old(published)
      ensures subscribed.Err? <==> old(closed) || |old(subscribers)| >= MAX_SUBSCRIBERS
      ensures subscribed.Err? ==> subscribers == old(subscribers) && all == old(all)
      ensures subscribed.Ok? ==> var s := subscribed.value;
        fresh(s) && subscribers == old(subscribers) + {s} && all == old(all) + {s} && s.from == |published|
        && s.first == (if StatusToSend(fields).Some? then [StatusToSend(fields).value] else [])
      ensures subscribed.Ok? ==>
        subscribed.value.first == if NothingToTell(fields) then [] else [Envelope(Status, "", fields)]
      ensures subscribed == Err(StreamClosed) <==> old(closed)
      ensures subscribed == Err(TooManyReaders) <==> !old(closed) && |old(subscribers)| >= 32
    {
      hide Subscription.Live, Subscription.Left, StatusToSend;
      WhatANewReaderIsTold(fields);
      if closed {
        return Err(StreamClosed);
      }
      if |subscribers| >= MAX_SUBSCRIBERS {
        return Err(TooManyReaders);
      }
      var s := Welcome(fields);
      subscribers, all := subscribers + {s}, all + {s};
      return Ok(s);
    }

    /** A place in the stream for a reader, with its first status already in it. */
    method Welcome(fields: map<string, string>) returns (s: Subscription)
      ensures fresh(s) && s.Live(published) && s.from == |published|
      ensures s.first == (if StatusToSend(fields).Some? then [StatusToSend(fields).value] else [])
    {
      hide StatusToSend;
      s := new Subscription(|published|);
      var status := StatusToSend(fields);
      if status.Some? {
        s.Send(status.value);
        s.first := [status.value];
      }
      assert s.Reached() == s.first;
      s.NewIsLive(published);
    }

    /** What one reader gets of the event just published: the event, or an end when
        it is a whole backlog behind. */
    method Offer(s: Subscription, envelope: Envelope, ghost before: seq<Envelope>)
      requires s in subscribers && s.Live(before) && published == before + [envelope]
      modifies this`subscribers, s`buffer, s`open, s`ended, s`dropped
      ensures subscribers == if |old(s.buffer)| < SUBSCRIBER_BACKLOG then old(subscribers) else old(subscribers) - {s}
      ensures s in subscribers ==> s.Live(published)
      ensures s !in subscribers ==> s.Left(published) && s.dropped
    {
      s.OneMorePublished(before, envelope);
      if |s.buffer| < SUBSCRIBER_BACKLOG {
        s.Send(envelope);
      } else {
        subscribers := subscribers - {s};
        s.Finish(true);
      }
    }

    /** The readers a whole backlog behind. */
    ghost function Lagging(): set<Subscription>
      reads this, subscribers
    {
      set s | s in subscribers && |s.buffer| >= SUBSCRIBER_BACKLOG
    }

    /** Every reader gets the event or is dropped for being a backlog behind; the
        rest go on untouched. */
    method Publish(envelope: Envelope) returns (error: Option<StreamError>)
      requires Valid()
      modifies this, subscribers
      ensures Valid() && closed == old(closed) && all == old(all)
      ensures error.None? <==> FromProgram(envelope.kind) && StatusWordsFit(envelope) && !closed
      ensures error.None? <==>
        !closed && !IsFromAScreen(envelope.kind) && !envelope.kind.Unheard?
        && !(envelope.kind == Status && "state" in envelope.fields && !IsAStateWord(envelope.fields["state"]))
      ensures error == Some(NotFromTheProgram) <==> IsFromAScreen(envelope.kind) || envelope.kind.Unheard?
      ensures error == Some(StreamClosed) ==> closed
      ensures error.None? ==> published == old(published) + [envelope]
      ensures error.None? ==> subscribers == old(subscribers) - old(Lagging())
      ensures error.None? ==> forall s | s in old(subscribers) :: s in subscribers <==> old(|s.buffer|) < 256
      ensures error.Some? ==> published == old(published) && subscribers == old(subscribers)
    {
      hide Subscription.Live, Subscription.Left, FromProgram, StatusWordsFit;
      WhoSendsWhat(envelope);
      if !FromProgram(envelope.kind) {
        return Some(NotFromTheProgram);
      }
      if !StatusWordsFit(envelope) {
        return Some(UnknownStatus);
      }
      if closed {
        return Some(StreamClosed);
      }
      LeftStayLeft(envelope);
      published := published + [envelope];
      OfferToAll(envelope, old(published));
      Fewer(subscribers, old(subscribers));
      return None;
    }

    method OfferToAll(envelope: Envelope, ghost before: seq<Envelope>)
      requires published == before + [envelope] && subscribers <= all
      requires forall s | s in subscribers :: s.Live(before)
      requires forall s | s in all - subscribers :: s.Left(published)
      modifies this`subscribers, subscribers
      ensures subscribers == old(subscribers) - old(Lagging())
      ensures forall s | s in subscribers :: s.Live(published)
      ensures forall s | s in all - subscribers :: s.Left(published)
    {
      hide Subscription.Live, Subscription.Left;
      var todo := subscribers;
      ghost var lagging := Lagging();
      while todo != {}
        invariant todo <= subscribers && subscribers == old(subscribers) - (lagging - todo)
        invariant forall s | s in todo :: s.Live(before) && |s.buffer| == old(|s.buffer|)
        invariant forall s | s in subscribers - todo :: s.Live(published)
        invariant forall s | s in all - subscribers :: s.Left(published)
        decreases todo
      {
        var s :| s in todo;
        Offer(s, envelope, before);
        todo := todo - {s};
      }
    }

    lemma LeftStayLeft(envelope: Envelope)
      requires Valid()
      ensures forall s | s in all - subscribers :: s.Left(published + [envelope])
    {
      forall s | s in all - subscribers ensures s.Left(published + [envelope]) {
        s.OneMorePublished(published, envelope);
      }
    }

    lemma {:induction false} Fewer(a: set<Subscription>, b: set<Subscription>)
      requires a <= b
      ensures |a| <= |b|
    {
      if a != {} {
        var s :| s in a;
        Fewer(a - {s}, b - {s});
      }
    }

    /** Closing ends every subscription; nothing is published after it. */
    method Close()
      requires Valid()
      modifies this, subscribers
      ensures Valid() && closed && subscribers == {} && published == old(published) && all == old(all)
      ensures forall s | s in old(subscribers) :: s.ended && !s.dropped
    {
      hide Subscription.Live, Subscription.Left;
      if closed {
        return;
      }
      closed := true;
      ghost var readers := subscribers;
      while subscribers != {}
        invariant subscribers <= readers && closed && all == old(all) && published == old(published)
        invariant forall s | s in subscribers :: s.Live(published)
        invariant forall s | s in all - subscribers :: s.Left(published)
        invariant forall s | s in readers - subscribers :: s.ended && !s.dropped
        decreases subscribers
      {
        var s :| s in subscribers;
        LetGo(s);
      }
    }

    method LetGo(s: Subscription)
      requires s in subscribers && s.Live(published)
      modifies this`subscribers, s`open, s`ended, s`dropped
      ensures subscribers == old(subscribers) - {s}
      ensures s.Left(published) && s.ended && !s.dropped
    {
      subscribers := subscribers - {s};
      s.Finish(false);
    }

    /** A reader taking its next event changes nothing for anyone. */
    method LetTheReaderTake(s: Subscription) returns (event: Option<Envelope>, over: bool)
      requires Valid() && s in all
      modifies s`buffer, s`delivered
      ensures Valid() && s.Reached() == old(s.Reached())
      ensures event.Some? ==> s.delivered == old(s.delivered) + [event.value]
    {
      assert s.Left(published) by {
        if s in subscribers {
          s.LiveMayLeave(published);
        }
      }
      event, over := s.Receive();
    }

    /** The first half of a reader's own close: it leaves the stream, under the
        stream's lock. */
    method Leave(s: Subscription)
      requires Valid() && s in all
      modifies this`subscribers
      ensures Valid() && s !in subscribers && subscribers == old(subscribers) - {s}
    {
      Fewer(subscribers - {s}, subscribers);
      subscribers := subscribers - {s};
    }

    /** The second half, under the reader's own lock: anything may have happened in
        between, and it still ends once. */
    method EndAfterLeaving(s: Subscription)
      requires Valid() && s in all && s !in subscribers
      modifies s
      ensures Valid() && s.ended && s.Reached() == old(s.Reached())
      ensures s.dropped == old(s.dropped)
    {
      assert s in all - subscribers;
      s.Finish(false);
    }
  }
}
