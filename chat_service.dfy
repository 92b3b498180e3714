/** The transcript state machine of the chat service: an ordered list of
    messages, a loading flag, and the send pipeline that streams a bot reply
    into a placeholder message. The HTTP exchange is abstracted into an
    `Outcome` value handed to `SendMessage`. */
module Chat {

  /** One transcript entry; `time` stands for the `Date` stamped when the
      message object is created. */
  datatype Message = Message(text: string, isUser: bool, time: nat)

  /** The three clock readings one send takes: for the user message, the
      bot placeholder and (on failure) the apology. */
  datatype Stamps = Stamps(user: nat, placeholder: nat, fallback: nat)

  /** What the chat endpoint does with one request, as the service sees it:
      the request itself rejects, the response is not OK, the response has
      no readable body, or the body yields `chunks` (already decoded) and
      then either signals end of data or, when `readFails`, throws on the
      next read. */
  datatype Outcome =
    | FetchError
    | NotOk
    | NoReader
    | Stream(chunks: seq<string>, readFails: bool)

  const GreetingText: string := "Hello! How can I help you today?"
  const ApologyText: string := "Sorry, I encountered an error. Please try again."

  function Greeting(now: nat): Message { Message(GreetingText, false, now) }
  function UserMessage(text: string, now: nat): Message { Message(text, true, now) }
  function Placeholder(now: nat): Message { Message("", false, now) }
  function Fallback(now: nat): Message { Message(ApologyText, false, now) }

  /** The transcript that a clear leaves behind. */
  function Cleared(now: nat): seq<Message> { [Greeting(now)] }

  function Texts(ms: seq<Message>): seq<string>
  {
    seq(|ms|, i requires 0 <= i < |ms| => ms[i].text)
  }

  /** The chunks joined in order (a right fold, independent of the
      left-to-right accumulation the service performs). */
  function Concat(cs: seq<string>): string
  {
    if cs == [] then "" else cs[0] + Concat(cs[1..])
  }

  /** The chunks the reader hands over before the exchange ends. */
  function Received(o: Outcome): seq<string>
  {
    match o
    case Stream(cs, _) => cs
    case _ => []
  }

  /** Whether the exchange ends in the catch block. */
  predicate Fails(o: Outcome)
  {
    match o
    case Stream(_, readFails) => readFails
    case _ => true
  }

  /** The transcript after a send of `text` that started from `ms`. */
  function Sent(ms: seq<Message>, text: string, st: Stamps, o: Outcome): seq<Message>
  {
    ms + [UserMessage(text, st.user), Message(Concat(Received(o)), false, st.placeholder)]
      + (if Fails(o) then [Fallback(st.fallback)] else [])
  }

  /** The service's two subjects. */
  datatype Subject = Transcript | Loading

  /** One notification: which subject emitted, and the transcript and the
      loading flag as they stand right after it. A `Transcript` event
      emits `snapshot`; a `Loading` event emits `loading`. */
  datatype Event = Event(source: Subject, snapshot: seq<Message>, loading: bool)

  /** The notifications while the first `n` chunks of `cs` arrive, all with
      the flag raised: after chunk k the placeholder (last after `base`)
      holds chunks 0..k. */
  function Streamed(base: seq<Message>, t: nat, cs: seq<string>, n: nat): seq<Event>
    requires n <= |cs|
  {
    seq(n, k requires 0 <= k < n => Event(Transcript, base + [Message(Concat(cs[..k + 1]), false, t)], true))
  }

  /** One more chunk adds one more notification and changes none before it. */
  lemma StreamedStep(base: seq<Message>, t: nat, cs: seq<string>, n: nat)
    requires n < |cs|
    ensures Streamed(base, t, cs, n + 1)
         == Streamed(base, t, cs, n) + [Event(Transcript, base + [Message(Concat(cs[..n + 1]), false, t)], true)]
  {
  }

  /** The notifications before the first read: the user message, the
      raised flag, and the empty placeholder. */
  function Opened(ms: seq<Message>, wasLoading: bool, text: string, st: Stamps): seq<Event>
  {
    var base := ms + [UserMessage(text, st.user)];
    [ Event(Transcript, base, wasLoading),
      Event(Loading, base, true),
      Event(Transcript, base + [Placeholder(st.placeholder)], true) ]
  }

  /** The notifications of the catch block (the apology, on failure) and of
      the finally block (the lowered flag). */
  function Settled(ms: seq<Message>, text: string, st: Stamps, o: Outcome): seq<Event>
  {
    var r := Sent(ms, text, st, o);
    (if Fails(o) then [Event(Transcript, r, true)] else []) + [Event(Loading, r, false)]
  }

  /** Every notification a send emits, in order. */
  function SendEvents(ms: seq<Message>, wasLoading: bool, text: string, st: Stamps, o: Outcome): seq<Event>
  {
    var cs := Received(o);
    Opened(ms, wasLoading, text, st)
      + Streamed(ms + [UserMessage(text, st.user)], st.placeholder, cs, |cs|)
      + Settled(ms, text, st, o)
  }

  // ---------------------------------------------------------------------
  // Properties of the accumulation

  lemma {:induction false} ConcatAppend(cs: seq<string>, c: string)
    ensures Concat(cs + [c]) == Concat(cs) + c
  {
    if cs == [] {
      assert [c][1..] == [];
    } else {
      assert (cs + [c])[1..] == cs[1..] + [c];
      ConcatAppend(cs[1..], c);
    }
  }

  lemma {:induction false} ConcatSplit(a: seq<string>, b: seq<string>)
    ensures Concat(a + b) == Concat(a) + Concat(b)
  {
    if a == [] {
      assert a + b == b;
    } else {
      assert (a + b)[1..] == a[1..] + b;
      ConcatSplit(a[1..], b);
    }
  }

  /** Text accumulated after fewer chunks is a prefix of the text after more. */
  lemma ConcatPrefix(cs: seq<string>, i: nat, j: nat)
    requires i <= j <= |cs|
    ensures Concat(cs[..i]) <= Concat(cs[..j])
  {
    assert cs[..j] == cs[..i] + cs[i..j];
    ConcatSplit(cs[..i], cs[i..j]);
  }

  /** Three chunks arriving in order end as their concatenation. */
  lemma ConcatExample()
    ensures Concat(["Hel", "lo, ", "world"]) == "Hello, world"
  {
  }

  // ---------------------------------------------------------------------
  // Properties of a whole send

  lemma SentOnSuccess(ms: seq<Message>, text: string, st: Stamps, cs: seq<string>)
    ensures var r := Sent(ms, text, st, Stream(cs, false));
      && |r| == |ms| + 2
      && r[..|ms|] == ms
      && r[|ms|] == UserMessage(text, st.user)
      && r[|ms| + 1] == Message(Concat(cs), false, st.placeholder)
  {
  }

  lemma SentOnFailure(ms: seq<Message>, text: string, st: Stamps, o: Outcome)
    requires Fails(o)
    ensures var r := Sent(ms, text, st, o);
      && |r| == |ms| + 3
      && r[..|ms|] == ms
      && r[|ms|] == UserMessage(text, st.user)
      && r[|ms| + 1] == Message(if o.Stream? then Concat(o.chunks) else "", false, st.placeholder)
      && r[|ms| + 2] == Fallback(st.fallback)
  {
  }

  /** A send publishes the user message first, then raises the loading
      flag, then emits only transcript values while the flag stays raised,
      and lowers the flag as its very last notification, with the final
      transcript in place. */
  lemma LoadingBracketsSend(ms: seq<Message>, wasLoading: bool, text: string, st: Stamps, o: Outcome)
    ensures var ev := SendEvents(ms, wasLoading, text, st, o);
      && |ev| >= 4
      && ev[0] == Event(Transcript, ms + [UserMessage(text, st.user)], wasLoading)
      && ev[1].source == Loading && ev[1].loading
      && ev[|ev| - 1] == Event(Loading, Sent(ms, text, st, o), false)
      && ev[|ev| - 2].snapshot == Sent(ms, text, st, o)
      && (forall e :: 1 < e < |ev| - 1 ==> ev[e].source == Transcript)
      && (forall e :: 1 <= e < |ev| - 1 ==> ev[e].loading)
  {
    var base := ms + [UserMessage(text, st.user)];
    var cs := Received(o);
    var ev := SendEvents(ms, wasLoading, text, st, o);
    var str := Streamed(base, st.placeholder, cs, |cs|);
    assert ev == Opened(ms, wasLoading, text, st) + str + Settled(ms, text, st, o);
    forall e | 1 < e < |ev| - 1 ensures ev[e].source == Transcript && ev[e].loading {
      if 3 <= e < 3 + |cs| {
        assert ev[e] == str[e - 3];
      }
    }
    if !Fails(o) && cs != [] {
      assert cs[..|cs|] == cs;
      assert ev[|ev| - 2] == str[|cs| - 1];
    }
  }

  /** While chunks arrive, every published transcript keeps the old
      transcript and the user message, has the same length, and ends in the
      bot placeholder, whose text only grows towards the final reply. */
  lemma StreamingIsInPlace(ms: seq<Message>, wasLoading: bool, text: string, st: Stamps, o: Outcome, k: nat, j: nat)
    requires k <= j < |Received(o)|
    ensures var ev := SendEvents(ms, wasLoading, text, st, o);
      && ev[3 + k].source == Transcript && ev[3 + j].source == Transcript
      && var a := ev[3 + k].snapshot;
      var b := ev[3 + j].snapshot;
      && |a| == |b| == |ms| + 2
      && a[..|ms| + 1] == b[..|ms| + 1] == ms + [UserMessage(text, st.user)]
      && a[|ms| + 1].isUser == false && a[|ms| + 1].time == st.placeholder
      && a[|ms| + 1].text <= b[|ms| + 1].text <= Concat(Received(o))
  {
    var cs := Received(o);
    ConcatPrefix(cs, k + 1, j + 1);
    ConcatPrefix(cs, j + 1, |cs|);
    assert cs[..|cs|] == cs;
  }

  lemma ClearIdempotent(t1: nat, t2: nat)
    ensures |Cleared(t1)| == 1 && Texts(Cleared(t1)) == Texts(Cleared(t2)) == [GreetingText]
    ensures !Cleared(t1)[0].isUser
  {
  }

  // ---------------------------------------------------------------------
  // The service

  class ChatService {
    var messages: seq<Message>
    var loading: bool
    /** Every notification the two subjects have emitted, oldest first. */
    ghost var events: seq<Event>

    /** The latest notification shows the current transcript and flag. */
    ghost predicate Valid()
      reads this
    {
      events != [] && events[|events| - 1].snapshot == messages && events[|events| - 1].loading == loading
    }

    /** The subjects start out as an empty list and a lowered flag; the
        greeting is then added. */
    constructor (now: nat)
      ensures Valid()
      ensures messages == [Greeting(now)] && !loading
      ensures events == [Event(Transcript, [Greeting(now)], false)]
    {
      messages, loading := [Greeting(now)], false;
      events := [Event(Transcript, messages, false)];
    }

    method AddMessage(m: Message)
      requires Valid()
      modifies this
      ensures Valid()
      ensures messages == old(messages) + [m]
      ensures events == old(events) + [Event(Transcript, messages, loading)]
      ensures loading == old(loading)
    {
      messages := messages + [m];
      events := events + [Event(Transcript, messages, loading)];
    }

    method SetLoading(on: bool)
      requires Valid()
      modifies this
      ensures Valid()
      ensures loading == on && events == old(events) + [Event(Loading, messages, on)]
      ensures messages == old(messages)
    {
      loading := on;
      events := events + [Event(Loading, messages, on)];
    }

    method ClearMessages(now: nat)
      requires Valid()
      modifies this
      ensures Valid()
      ensures messages == Cleared(now)
      ensures events == old(events) + [Event(Transcript, Cleared(now), loading)]
      ensures loading == old(loading)
    {
      messages := Cleared(now);
      events := events + [Event(Transcript, messages, loading)];
    }

    /** Overwrites the text of the entry at `index` and publishes a copy of
        the transcript. */
    method Overwrite(index: nat, text: string)
      requires Valid() && index < |messages|
      modifies this
      ensures Valid()
      ensures messages == old(messages)[index := old(messages)[index].(text := text)]
      ensures events == old(events) + [Event(Transcript, messages, loading)]
      ensures loading == old(loading)
    {
      messages := messages[index := messages[index].(text := text)];
      events := events + [Event(Transcript, messages, loading)];
    }

    /** The read loop: each chunk grows the accumulated reply, which then
        overwrites the placeholder's text and is published. */
    method StreamReply(placeholderIndex: nat, chunks: seq<string>, ghost base: seq<Message>, ghost t: nat)
      requires Valid() && loading
      requires placeholderIndex == |base| && messages == base + [Placeholder(t)]
      modifies this
      ensures Valid() && loading
      ensures messages == base + [Message(Concat(chunks), false, t)]
      ensures events == old(events) + Streamed(base, t, chunks, |chunks|)
    {
      var accumulated := "";
      var i := 0;
      while i < |chunks|
        invariant 0 <= i <= |chunks|
        invariant accumulated == Concat(chunks[..i])
        invariant messages == base + [Message(accumulated, false, t)]
        invariant events == old(events) + Streamed(base, t, chunks, i)
        invariant Valid() && loading
      {
        assert chunks[..i + 1] == chunks[..i] + [chunks[i]];
        ConcatAppend(chunks[..i], chunks[i]);
        accumulated := accumulated + chunks[i];
        Overwrite(placeholderIndex, accumulated);
        StreamedStep(base, t, chunks, i);
        i := i + 1;
      }
      assert chunks[..i] == chunks;
    }

    /** The steps before the request: the user message goes at the end,
        the flag is raised, and an empty bot placeholder is appended at the
        index returned. */
    method Open(messageText: string, st: Stamps) returns (placeholderIndex: nat)
      requires Valid()
      modifies this
      ensures Valid() && loading
      ensures placeholderIndex == |old(messages)| + 1
      ensures messages == old(messages) + [UserMessage(messageText, st.user)] + [Placeholder(st.placeholder)]
      ensures events == old(events) + Opened(old(messages), old(loading), messageText, st)
    {
      AddMessage(UserMessage(messageText, st.user));
      SetLoading(true);
      placeholderIndex := |messages|;
      AddMessage(Placeholder(st.placeholder));
    }

    /** The request and the read loop: a failed request, a non-OK response
        or a missing reader throws before any chunk is read; otherwise the
        chunks stream into the placeholder, and the exchange fails when the
        last read throws. */
    method Exchange(placeholderIndex: nat, response: Outcome, ghost base: seq<Message>, ghost t: nat)
      returns (failed: bool)
      requires Valid() && loading
      requires placeholderIndex == |base| && messages == base + [Placeholder(t)]
      modifies this
      ensures Valid() && loading
      ensures failed == Fails(response)
      ensures messages == base + [Message(Concat(Received(response)), false, t)]
      ensures events == old(events) + Streamed(base, t, Received(response), |Received(response)|)
    {
      if response.Stream? {
        StreamReply(placeholderIndex, response.chunks, base, t);
        failed := response.readFails;
      } else {
        failed := true;
      }
    }

    /** The catch block (on failure, the apology goes at the end) and the
        finally block (the flag is lowered). */
    method Settle(failed: bool, now: nat)
      requires Valid() && loading
      modifies this
      ensures Valid() && !loading
      ensures messages == old(messages) + (if failed then [Fallback(now)] else [])
      ensures events == old(events)
                        + (if failed then [Event(Transcript, messages, true)] else [])
                        + [Event(Loading, messages, false)]
    {
      if failed {
        AddMessage(Fallback(now));
      }
      SetLoading(false);
    }

    method SendMessage(messageText: string, st: Stamps, response: Outcome)
      requires Valid()
      modifies this
      ensures Valid() && !loading
      ensures messages == Sent(old(messages), messageText, st, response)
      ensures events == old(events) + SendEvents(old(messages), old(loading), messageText, st, response)
    {
      ghost var base := messages + [UserMessage(messageText, st.user)];
      var placeholderIndex := Open(messageText, st);
      var failed := Exchange(placeholderIndex, response, base, st.placeholder);
      Settle(failed, st.fallback);
    }
  }
}
