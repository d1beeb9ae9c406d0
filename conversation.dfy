/** The conversation stream engine of the chat component, on values: the
    transcript of messages, the cursor `assistantMessageId` that says which
    message the current exchange is streaming into, the pure `setMessages`
    updaters of `sendMessage`, and what one exchange, or a run of
    exchanges, does to the transcript. */
module Conversation {
  import opened Text

  datatype Option<T> = None | Some(value: T)

  /** The two roles the component ever writes into a message. */
  datatype Role = User | Assistant

  /** One transcript entry, `{role, content}`. */
  datatype Message = Message(role: Role, content: string)

  /** The transcript together with the cursor of the exchange in progress:
      `None` before the exchange has opened an assistant message, otherwise
      the index that message was given. */
  datatype Stream = Stream(transcript: seq<Message>, cursor: Option<nat>)

  /** Why an exchange was rejected: an `Error` instance, described by its
      `message`, or any other thrown value (the backend rejects with a
      string), described by its string conversion. */
  datatype Failure = ErrorObject(message: string) | Thrown(text: string)

  /** What the backend does in one exchange: the fragments it streams, in
      arrival order, and then either success (`None`) or a rejection. */
  datatype Reply = Reply(fragments: seq<string>, failure: Option<Failure>)

  /** One submission attempt: what the input box held, and how the backend
      would answer if the submission goes through. */
  datatype Turn = Turn(input: string, reply: Reply)

  const ErrorPrefix: string := "Error: "

  // ---------------------------------------------------------------------
  // Submission guard

  /** The guard of `sendMessage`: the input must not be blank once trimmed
      and some model must be selected (the empty identifier means none). */
  function Admits(input: string, selectedModel: string): (ok: bool)
    ensures ok <==> (!Blank(input) && selectedModel != [])
  {
    Trim(input) != [] && selectedModel != []
  }

  // ---------------------------------------------------------------------
  // Specification functions

  /** The contents of the user messages of `t`, in transcript order. */
  function UserTurns(t: seq<Message>): seq<string> {
    if |t| == 0 then []
    else UserTurns(t[..|t| - 1]) + (if t[|t| - 1].role == User then [t[|t| - 1].content] else [])
  }

  /** `b` is `a` after appends and in-place growth only: no entry is removed
      or changes role, every entry's old content is a prefix of its new
      content, and user messages do not change at all. */
  predicate Grows(a: seq<Message>, b: seq<Message>) {
    && |a| <= |b|
    && forall i :: 0 <= i < |a| ==>
         && b[i].role == a[i].role
         && a[i].content <= b[i].content
         && (a[i].role == User ==> b[i] == a[i])
  }

  /** The fragments of a stream joined in arrival order. */
  function Concat(fragments: seq<string>): string {
    if |fragments| == 0 then ""
    else Concat(fragments[..|fragments| - 1]) + fragments[|fragments| - 1]
  }

  // ---------------------------------------------------------------------
  // The `setMessages` updaters

  /** The fold condition: the transcript ends in an assistant message and the
      cursor holds the index of that last message. */
  predicate CanExtend(t: seq<Message>, cursor: Option<nat>) {
    |t| > 0 && t[|t| - 1].role == Assistant && cursor == Some(|t| - 1)
  }

  /** Appends the trimmed user input as a new user message. */
  function AppendUser(t: seq<Message>, text: string): (r: seq<Message>)
    ensures |r| == |t| + 1 && r[..|t|] == t && r[|t|] == Message(User, text)
    ensures Grows(t, r)
    ensures UserTurns(r) == UserTurns(t) + [text]
    ensures forall c :: !CanExtend(r, c)
  {
    UserTurnsAppend(t, Message(User, text));
    t + [Message(User, text)]
  }

  /** Folds one streamed fragment: it grows the trailing assistant message in
      place when the cursor points at it, and otherwise opens a new assistant
      message and moves the cursor to it. Either way the cursor ends up on a
      trailing assistant message. */
  function FoldFragment(s: Stream, fragment: string): (r: Stream)
    ensures CanExtend(s.transcript, s.cursor) ==>
      && |r.transcript| == |s.transcript|
      && r.cursor == s.cursor
      && (forall i :: 0 <= i < |s.transcript| - 1 ==> r.transcript[i] == s.transcript[i])
      && r.transcript[|s.transcript| - 1]
         == Message(Assistant, s.transcript[|s.transcript| - 1].content + fragment)
    ensures !CanExtend(s.transcript, s.cursor) ==>
      && r.transcript == s.transcript + [Message(Assistant, fragment)]
      && r.cursor == Some(|s.transcript|)
    ensures CanExtend(r.transcript, r.cursor)
  {
    var t := s.transcript;
    if CanExtend(t, s.cursor) then
      var last := t[|t| - 1];
      Stream(t[..|t| - 1] + [Message(last.role, last.content + fragment)], s.cursor)
    else
      Stream(t + [Message(Assistant, fragment)], Some(|t|))
  }

  /** The error description appended when an exchange is rejected. */
  function ErrorNote(f: Failure): (m: Message)
    ensures m.role == Assistant
    ensures |ErrorPrefix| <= |m.content| && m.content[..|ErrorPrefix|] == ErrorPrefix
    ensures m.content[|ErrorPrefix|..] == match f case ErrorObject(msg) => msg case Thrown(v) => v
  {
    var details := match f case ErrorObject(msg) => msg case Thrown(v) => v;
    Message(Assistant, ErrorPrefix + details)
  }

  /** Appends the error description as a separate assistant message; a
      partially streamed reply before it is left exactly as it was. */
  function AppendError(t: seq<Message>, f: Failure): (r: seq<Message>)
    ensures |r| == |t| + 1 && r[..|t|] == t && r[|t|] == ErrorNote(f)
    ensures Grows(t, r)
    ensures UserTurns(r) == UserTurns(t)
  {
    UserTurnsAppend(t, ErrorNote(f));
    t + [ErrorNote(f)]
  }

  // ---------------------------------------------------------------------
  // Streams and exchanges

  /** Folds the fragments of a stream in arrival order. */
  function FoldAll(s: Stream, fragments: seq<string>): Stream {
    if |fragments| == 0 then s
    else FoldFragment(FoldAll(s, fragments[..|fragments| - 1]), fragments[|fragments| - 1])
  }

  /** One exchange: the user message is appended and the cursor starts at
      `None`, the reply's fragments are folded, and a rejection appends its
      error description. */
  function Exchange(t: seq<Message>, text: string, reply: Reply): Stream {
    var streamed := FoldAll(Stream(AppendUser(t, text), None), reply.fragments);
    match reply.failure
    case None => streamed
    case Some(f) => Stream(AppendError(streamed.transcript, f), streamed.cursor)
  }

  /** The transcript after a run of submissions with a fixed model selection,
      each exchange finishing before the next submission. */
  function Converse(t: seq<Message>, selectedModel: string, turns: seq<Turn>): seq<Message> {
    if |turns| == 0 then t
    else
      var before := Converse(t, selectedModel, turns[..|turns| - 1]);
      var turn := turns[|turns| - 1];
      if Admits(turn.input, selectedModel) then Exchange(before, Trim(turn.input), turn.reply).transcript
      else before
  }

  /** The trimmed inputs of the submissions in `turns` that pass the guard. */
  function Accepted(selectedModel: string, turns: seq<Turn>): seq<string> {
    if |turns| == 0 then []
    else
      var turn := turns[|turns| - 1];
      Accepted(selectedModel, turns[..|turns| - 1])
        + (if Admits(turn.input, selectedModel) then [Trim(turn.input)] else [])
  }

  // ---------------------------------------------------------------------
  // Lemmas

  /** Appending one message adds its content to the user turns exactly when
      it is a user message. */
  lemma UserTurnsAppend(t: seq<Message>, m: Message)
    ensures UserTurns(t + [m]) == UserTurns(t) + (if m.role == User then [m.content] else [])
  {
    assert (t + [m])[..|t|] == t;
  }

  lemma GrowsTransitive(a: seq<Message>, b: seq<Message>, c: seq<Message>)
    requires Grows(a, b) && Grows(b, c)
    ensures Grows(a, c)
  {
  }

  /** Folding a fragment only grows the transcript and leaves its user turns
      as they were. */
  lemma FoldFragmentGrows(s: Stream, fragment: string)
    ensures Grows(s.transcript, FoldFragment(s, fragment).transcript)
    ensures UserTurns(FoldFragment(s, fragment).transcript) == UserTurns(s.transcript)
  {
    var t := s.transcript;
    if CanExtend(t, s.cursor) {
      var last := t[|t| - 1];
      assert t == t[..|t| - 1] + [last];
      UserTurnsAppend(t[..|t| - 1], last);
      UserTurnsAppend(t[..|t| - 1], Message(last.role, last.content + fragment));
    } else {
      UserTurnsAppend(t, Message(Assistant, fragment));
    }
  }

  /** A whole stream only grows the transcript, leaves its user turns as they
      were, and, once it has delivered a fragment, leaves the cursor on a
      trailing assistant message. */
  lemma {:induction false} FoldAllGrows(s: Stream, fragments: seq<string>)
    ensures Grows(s.transcript, FoldAll(s, fragments).transcript)
    ensures UserTurns(FoldAll(s, fragments).transcript) == UserTurns(s.transcript)
    ensures |fragments| > 0 ==> CanExtend(FoldAll(s, fragments).transcript, FoldAll(s, fragments).cursor)
  {
    if |fragments| > 0 {
      var before := FoldAll(s, fragments[..|fragments| - 1]);
      FoldAllGrows(s, fragments[..|fragments| - 1]);
      FoldFragmentGrows(before, fragments[|fragments| - 1]);
      GrowsTransitive(s.transcript, before.transcript, FoldAll(s, fragments).transcript);
    }
  }

  /** An exchange only grows the transcript: earlier messages keep their
      place and role, user messages are untouched. */
  lemma ExchangeGrows(t: seq<Message>, text: string, reply: Reply)
    ensures Grows(t, Exchange(t, text, reply).transcript)
  {
    ExchangeShape(t, text, reply);
  }

  /** A stream of n >= 1 fragments folded into a transcript the cursor cannot
      extend (as after a submission) appends exactly one assistant message,
      whose content is the fragments joined in arrival order, and leaves the
      cursor on it. */
  lemma {:induction false} StreamYieldsOneReply(s: Stream, fragments: seq<string>)
    requires !CanExtend(s.transcript, s.cursor) && |fragments| > 0
    ensures FoldAll(s, fragments)
         == Stream(s.transcript + [Message(Assistant, Concat(fragments))], Some(|s.transcript|))
  {
    var n := |fragments|;
    if n == 1 {
      assert fragments[..0] == [];
      assert Concat(fragments) == fragments[0];
    } else {
      StreamYieldsOneReply(s, fragments[..n - 1]);
      var t := s.transcript + [Message(Assistant, Concat(fragments[..n - 1]))];
      assert t[..|t| - 1] == s.transcript;
    }
  }

  /** The whole effect of one exchange on the transcript: the old transcript,
      the user message, one assistant message holding all streamed fragments
      when there were any, and the error description when the exchange was
      rejected. */
  lemma ExchangeShape(t: seq<Message>, text: string, reply: Reply)
    ensures Exchange(t, text, reply).transcript
         == t + [Message(User, text)]
              + (if |reply.fragments| > 0 then [Message(Assistant, Concat(reply.fragments))] else [])
              + (if reply.failure.Some? then [ErrorNote(reply.failure.value)] else [])
  {
    if |reply.fragments| > 0 {
      StreamYieldsOneReply(Stream(AppendUser(t, text), None), reply.fragments);
    }
  }

  /** An exchange adds exactly one user turn, the submitted text. */
  lemma ExchangeAddsOneUserTurn(t: seq<Message>, text: string, reply: Reply)
    ensures UserTurns(Exchange(t, text, reply).transcript) == UserTurns(t) + [text]
  {
    FoldAllGrows(Stream(AppendUser(t, text), None), reply.fragments);
  }

  /** After a run of submissions the user turns are the old ones followed by
      the trimmed text of every submission that passed the guard, in order. */
  lemma {:induction false} ConverseUserTurns(t: seq<Message>, selectedModel: string, turns: seq<Turn>)
    ensures UserTurns(Converse(t, selectedModel, turns)) == UserTurns(t) + Accepted(selectedModel, turns)
  {
    if |turns| > 0 {
      var turn := turns[|turns| - 1];
      var before := Converse(t, selectedModel, turns[..|turns| - 1]);
      ConverseUserTurns(t, selectedModel, turns[..|turns| - 1]);
      if Admits(turn.input, selectedModel) {
        ExchangeAddsOneUserTurn(before, Trim(turn.input), turn.reply);
      }
    }
  }

  /** With no model selected, no submission changes the transcript. */
  lemma {:induction false} NoModelNoChange(t: seq<Message>, turns: seq<Turn>)
    ensures Converse(t, "", turns) == t
    ensures Accepted("", turns) == []
  {
    if |turns| > 0 {
      NoModelNoChange(t, turns[..|turns| - 1]);
    }
  }

  /** A fragment arriving after the error description never merges into it:
      whatever cursor the exchange held pointed below the appended note. */
  lemma ErrorNoteIsNeverExtended(s: Stream, f: Failure, fragment: string)
    requires s.cursor.None? || s.cursor.value < |s.transcript|
    ensures FoldFragment(Stream(AppendError(s.transcript, f), s.cursor), fragment).transcript
         == AppendError(s.transcript, f) + [Message(Assistant, fragment)]
  {
  }

  /** A fragment arriving after a rejected exchange has ended opens a new
      assistant message instead of merging into the error description. */
  lemma LateFragmentAfterError(t: seq<Message>, text: string, fragments: seq<string>, f: Failure, fragment: string)
    ensures var e := Exchange(t, text, Reply(fragments, Some(f)));
            FoldFragment(e, fragment).transcript == e.transcript + [Message(Assistant, fragment)]
  {
    var start := Stream(AppendUser(t, text), None);
    FoldAllGrows(start, fragments);
    ErrorNoteIsNeverExtended(FoldAll(start, fragments), f, fragment);
  }
}
