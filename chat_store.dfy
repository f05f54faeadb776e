/**
 * The frontend chat store: which cat is shown, whether the microphone is
 * recording, and a buffer of the most recent chat messages.
 */
module ChatStore {

  /** The store keeps at most this many messages. */
  const MaxMessages: nat := 10

  datatype CatColor = Black | White

  /** Who wrote a message shown in the chat: the user or the cat. */
  datatype Sender = User | Cat

  /** A displayed message; `timestamp` is the clock reading when it was added. */
  datatype ChatMessage = ChatMessage(sender: Sender, content: string, timestamp: int)

  /** The other cat. */
  function Switched(c: CatColor): (r: CatColor)
    ensures r != c
  {
    if c == Black then White else Black
  }

  lemma SwitchedTwice(c: CatColor)
    ensures Switched(Switched(c)) == c
  {
  }

  /** The buffer after appending `m`, dropping the oldest message once there are too many. */
  function Pushed(ms: seq<ChatMessage>, m: ChatMessage): (r: seq<ChatMessage>)
    ensures |r| > 0 && r[|r| - 1] == m
    ensures |ms| < MaxMessages ==> r == ms + [m]
    ensures |ms| >= MaxMessages ==> r == ms[1..] + [m]
    ensures |ms| <= MaxMessages ==> |r| <= MaxMessages
  {
    var s := ms + [m];
    if |s| > MaxMessages then s[1..] else s
  }

  /** The buffer with the newest message's content replaced; unchanged when empty. */
  function WithLastContent(ms: seq<ChatMessage>, content: string): (r: seq<ChatMessage>)
    ensures |r| == |ms|
    ensures forall i :: 0 <= i < |ms| - 1 ==> r[i] == ms[i]
    ensures |ms| > 0 ==> r[|ms| - 1].content == content
    ensures |ms| > 0 ==> r[|ms| - 1].sender == ms[|ms| - 1].sender
    ensures |ms| > 0 ==> r[|ms| - 1].timestamp == ms[|ms| - 1].timestamp
  {
    if |ms| > 0 then ms[|ms| - 1 := ms[|ms| - 1].(content := content)] else ms
  }

  /** The buffer after adding each of `xs` in order. */
  function PushedAll(ms: seq<ChatMessage>, xs: seq<ChatMessage>): seq<ChatMessage>
    decreases |xs|
  {
    if xs == [] then ms else PushedAll(Pushed(ms, xs[0]), xs[1..])
  }

  /** The last `n` elements of `s`, or all of `s` when it is shorter. */
  function MostRecent(s: seq<ChatMessage>, n: nat): (r: seq<ChatMessage>)
    ensures |r| == if |s| <= n then |s| else n
  {
    if |s| <= n then s else s[|s| - n..]
  }

  /** Dropping the first element of a sequence longer than `n` keeps the same last `n`. */
  lemma MostRecentDropFirst(a: seq<ChatMessage>, b: seq<ChatMessage>, n: nat)
    requires |a| > n
    ensures MostRecent(a[1..] + b, n) == MostRecent(a + b, n)
  {
    assert a[1..] + b == (a + b)[1..];
  }

  /**
   * However many messages are added, the buffer holds exactly the ten most
   * recent, oldest first.
   */
  lemma {:induction false} PushedAllKeepsMostRecent(ms: seq<ChatMessage>, xs: seq<ChatMessage>)
    requires |ms| <= MaxMessages
    ensures PushedAll(ms, xs) == MostRecent(ms + xs, MaxMessages)
    decreases |xs|
  {
    if xs == [] {
      assert ms + xs == ms;
    } else {
      var p := Pushed(ms, xs[0]);
      PushedAllKeepsMostRecent(p, xs[1..]);
      assert ms + xs == (ms + [xs[0]]) + xs[1..];
      if |ms| < MaxMessages {
        assert p == ms + [xs[0]];
      } else {
        assert p == (ms + [xs[0]])[1..];
        MostRecentDropFirst(ms + [xs[0]], xs[1..], MaxMessages);
      }
    }
  }

  /** The store's state and actions. */
  class ChatStore {
    var currentCat: CatColor
    var messages: seq<ChatMessage>
    var isRecording: bool

    ghost predicate Valid()
      reads this
    {
      |messages| <= MaxMessages
    }

    /** The initial state: the black cat, no messages, not recording. */
    constructor ()
      ensures Valid()
      ensures currentCat == Black && messages == [] && !isRecording
    {
      currentCat := Black;
      messages := [];
      isRecording := false;
    }

    method SwitchCat()
      modifies this
      ensures currentCat == Switched(old(currentCat))
      ensures old(Valid()) ==> Valid()
      ensures messages == old(messages) && isRecording == old(isRecording)
    {
      currentCat := Switched(currentCat);
    }

    /** Adds a message stamped with `now`, the clock reading at the call. */
    method AddMessage(sender: Sender, content: string, now: int)
      modifies this
      ensures messages == Pushed(old(messages), ChatMessage(sender, content, now))
      ensures messages[|messages| - 1] == ChatMessage(sender, content, now)
      ensures old(Valid()) ==> Valid()
      ensures currentCat == old(currentCat) && isRecording == old(isRecording)
    {
      messages := messages + [ChatMessage(sender, content, now)];
      if |messages| > MaxMessages {
        messages := messages[1..];
      }
    }

    method UpdateLastMessage(content: string)
      modifies this
      ensures messages == WithLastContent(old(messages), content)
      ensures old(Valid()) ==> Valid()
      ensures old(messages) == [] ==> messages == []
      ensures currentCat == old(currentCat) && isRecording == old(isRecording)
    {
      if |messages| > 0 {
        var lastMessage := messages[|messages| - 1];
        messages := messages[|messages| - 1 := lastMessage.(content := content)];
      }
    }

    method SetRecording(status: bool)
      modifies this
      ensures isRecording == status
      ensures old(Valid()) ==> Valid()
      ensures currentCat == old(currentCat) && messages == old(messages)
    {
      isRecording := status;
    }
  }
}
