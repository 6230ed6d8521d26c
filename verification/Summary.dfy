/** The incremental conversation summary of internal/summary/service.go, and the window of recent messages
    that internal/chat/service.go puts after it. Updates of one conversation run one after another. */
module Summary {
  import opened Common

  datatype Message = Message(sequence: int, text: string)

  datatype Options = Options(trigger: nat, keepRecent: nat, maxRunes: nat) {
    predicate Valid() { 4 <= trigger <= 500 && 2 <= keepRecent < trigger && 500 <= maxRunes <= 20_000 }
  }

  const MAX_BATCH := 1_000

  datatype Summary = Summary(content: string, through: int, count: nat)

  /** One summarizer call whose result was stored. */
  datatype Digest = Digest(previous: string, batch: seq<Message>, content: string)

  /** The stored messages and summary of a conversation, and the record of the stored summarizer calls. */
  datatype State = State(log: seq<Message>, summary: Option<Summary>, digests: seq<Digest>)

  /** What the summarizer returns, and whether the text looks like it holds credentials. */
  datatype Reply = Unavailable | Text(content: string, sensitive: bool)

  /** A write takes effect and is confirmed, does not take effect, or takes effect without a confirmation. */
  datatype Write = Confirmed | Rejected | Unconfirmed

  datatype Outcome = Unchanged | Updated(through: int, count: nat) | Failed

  function After(messages: seq<Message>, sequence: int): seq<Message> {
    if messages == [] then []
    else (if messages[0].sequence > sequence then [messages[0]] else []) + After(messages[1..], sequence)
  }

  function UpTo(messages: seq<Message>, sequence: int): seq<Message> {
    if messages == [] then []
    else (if messages[0].sequence <= sequence then [messages[0]] else []) + UpTo(messages[1..], sequence)
  }

  /** Sequence numbers are positive and grow, with gaps. */
  predicate Ordered(log: seq<Message>) {
    && (forall i | 0 <= i < |log| :: log[i].sequence > 0)
    && (forall i, j | 0 <= i < j < |log| :: log[i].sequence < log[j].sequence)
  }

  function First(messages: seq<Message>, limit: nat): seq<Message> {
    if |messages| <= limit then messages else messages[..limit]
  }

  function Last(messages: seq<Message>, limit: nat): seq<Message> {
    if |messages| <= limit then messages else messages[|messages| - limit..]
  }

  function Through(s: Option<Summary>): int { if s.Some? then s.value.through else 0 }

  function Content(s: Option<Summary>): string { if s.Some? then s.value.content else "" }

  function Count(s: Option<Summary>): nat { if s.Some? then s.value.count else 0 }

  function TrimLeft(s: string): string {
    if s != "" && IsSpace(s[0]) then TrimLeft(s[1..]) else s
  }

  function Trim(s: string): string
    decreases |s|
  {
    var t := TrimLeft(s);
    if t != "" && IsSpace(t[|t| - 1]) then TrimRight(t) else t
  }

  function TrimRight(s: string): string {
    if s != "" && IsSpace(s[|s| - 1]) then TrimRight(s[..|s| - 1]) else s
  }

  /** The text to store, if it is acceptable. */
  function Accepted(o: Options, r: Reply): Option<string> {
    match r
    case Unavailable => None
    case Text(content, sensitive) =>
      var text := Trim(content);
      if text == "" || sensitive || |text| > o.maxRunes then None else Some(text)
  }

  lemma {:induction false} LeftTrimmed(s: string) returns (space: string)
    ensures AllSpace(space) && s == space + TrimLeft(s) && (TrimLeft(s) != "" ==> !IsSpace(TrimLeft(s)[0]))
  {
    space := "";
    if s != "" && IsSpace(s[0]) {
      space := LeftTrimmed(s[1..]);
      space := [s[0]] + space;
    }
  }

  lemma {:induction false} RightTrimmed(s: string) returns (space: string)
    ensures AllSpace(space) && s == TrimRight(s) + space
    ensures TrimRight(s) != "" ==> !IsSpace(TrimRight(s)[|TrimRight(s)| - 1])
  {
    space := "";
    if s != "" && IsSpace(s[|s| - 1]) {
      space := RightTrimmed(s[..|s| - 1]);
      space := space + [s[|s| - 1]];
    }
  }

  /** Blanks, the text, and blanks; and no blank at either end of the text. */
  predicate Frames(before: string, text: string, after: string) {
    AllSpace(before) && AllSpace(after) && text != "" && !IsSpace(text[0]) && !IsSpace(text[|text| - 1])
  }

  lemma {:induction false} SkipsFront(before: string, s: string)
    requires AllSpace(before) && s != "" && !IsSpace(s[0])
    ensures TrimLeft(before + s) == s
  {
    if before == "" {
      assert before + s == s;
    } else {
      assert (before + s)[1..] == before[1..] + s;
      SkipsFront(before[1..], s);
    }
  }

  lemma {:induction false} SkipsBack(s: string, after: string)
    requires AllSpace(after) && s != "" && !IsSpace(s[|s| - 1])
    ensures TrimRight(s + after) == s
  {
    if after == "" {
      assert s + after == s;
    } else {
      var n := |after| - 1;
      assert (s + after)[..|s + after| - 1] == s + after[..n];
      SkipsBack(s, after[..n]);
    }
  }

  /** A reply is accepted exactly when it is not sensitive and is some blanks, a text within the limit, and blanks; and
      then that text is what is accepted. */
  lemma AcceptedExactly(o: Options, content: string, sensitive: bool, text: string)
    ensures Accepted(o, Text(content, sensitive)) == Some(text) <==>
      && !sensitive && 1 <= |text| <= o.maxRunes
      && exists before, after :: Frames(before, text, after) && content == before + text + after
  {
    var front := LeftTrimmed(content);
    var rest := TrimLeft(content);
    var back := RightTrimmed(rest);
    if Accepted(o, Text(content, sensitive)) == Some(text) {
      assert Trim(content) == TrimRight(rest) == text;
      assert text[0] == rest[0];
      assert Frames(front, text, back) && content == front + text + back;
    }
    if before, after :| Frames(before, text, after) && content == before + text + after {
      assert content == before + (text + after);
      SkipsFront(before, text + after);
      SkipsBack(text, after);
      assert Trim(content) == text;
    }
  }

  /** The messages an update hands to the summarizer; none below the trigger. */
  function Batch(o: Options, log: seq<Message>, through: int, latest: int): seq<Message>
    requires o.Valid()
  {
    var listed := First(After(UpTo(log, latest), through), MAX_BATCH);
    if |listed| < o.trigger then [] else listed[..|listed| - o.keepRecent]
  }

  /** The state an update leaves, with a given summarizer reply and fate of the write. */
  function AfterUpdate(o: Options, st: State, latest: int, r: Reply, w: Write): State
    requires o.Valid()
  {
    var batch := Batch(o, st.log, Through(st.summary), latest);
    if latest <= 0 || batch == [] || Accepted(o, r) == None || w == Rejected then st
    else
      var content := Accepted(o, r).value;
      State(st.log,
            Some(Summary(content, batch[|batch| - 1].sequence, Count(st.summary) + |batch|)),
            st.digests + [Digest(Content(st.summary), batch, content)])
  }

  class Service {
    const options: Options
    var log: seq<Message>
    var stored: Option<Summary>
    ghost var digests: seq<Digest>

    constructor (o: Options)
      requires o.Valid()
      ensures options == o && Contents() == State([], None, [])
    {
      options, log, stored, digests := o, [], None, [];
    }

    ghost function Contents(): State
      reads this
    {
      State(log, stored, digests)
    }

    method Upsert(item: Summary, ghost d: Digest, w: Write) returns (ok: bool)
      modifies this`stored, this`digests
      ensures ok == (w == Confirmed)
      ensures stored == (if w == Rejected then old(stored) else Some(item))
      ensures digests == (if w == Rejected then old(digests) else old(digests) + [d])
    {
      if w != Rejected {
        stored := Some(item);
        digests := digests + [d];
      }
      ok := w == Confirmed;
    }

    method Update(latest: int, reply: Reply, w: Write) returns (r: Outcome)
      requires options.Valid()
      modifies this`stored, this`digests
      ensures Contents() == AfterUpdate(options, old(Contents()), latest, reply, w)
      ensures r.Updated? ==> stored.Some? && r.through == stored.value.through && r.count == stored.value.count
      ensures r.Unchanged? ==> latest > 0 && Batch(options, log, Through(old(stored)), latest) == []
      ensures r.Failed? <==>
        latest <= 0
        || (Batch(options, log, Through(old(stored)), latest) != []
             && (Accepted(options, reply) == None || w != Confirmed))
    {
      hide UpTo, After, Trim;
      if latest <= 0 { return Failed; }
      var current := if stored.Some? then stored.value else Summary("", 0, 0);
      var messages := First(After(UpTo(log, latest), current.through), MAX_BATCH);
      if |messages| < options.trigger { return Unchanged; }
      messages := messages[..|messages| - options.keepRecent];
      if reply.Unavailable? { return Failed; }
      var content := Trim(reply.content);
      if content == "" || reply.sensitive || |content| > options.maxRunes { return Failed; }
      ghost var digest := Digest(current.content, messages, content);
      current := Summary(content, messages[|messages| - 1].sequence, current.count + |messages|);
      var ok := Upsert(current, digest, w);
      if !ok { return Failed; }
      r := Updated(current.through, current.count);
    }

    /** The messages given to the model after the summary: the recent ones and the new one, without those
        the summary already covers. */
    method RecentHistory(user: Message) returns (history: seq<Message>)
      requires options.Valid()
      ensures history == Window(options, Contents(), user)
    {
      var limit := 40;
      if options.trigger > limit { limit := options.trigger; }
      var messages := Last(log, limit) + [user];
      if stored.Some? {
        history := MessagesAfterSequence(messages, stored.value.through);
      } else {
        history := messages;
      }
    }
  }

  lemma CutNext(messages: seq<Message>, sequence: int, i: nat)
    requires i <= |messages|
    ensures After(messages[i..], sequence) ==
      if i == |messages| then []
      else (if messages[i].sequence > sequence then [messages[i]] else []) + After(messages[i + 1..], sequence)
  {
    if i < |messages| { assert messages[i..][1..] == messages[i + 1..]; }
  }

  method MessagesAfterSequence(messages: seq<Message>, sequence: int) returns (result: seq<Message>)
    ensures result == After(messages, sequence)
  {
    hide After;
    result := [];
    assert messages[0..] == messages;
    for i := 0 to |messages|
      invariant After(messages, sequence) == result + After(messages[i..], sequence)
    {
      CutNext(messages, sequence, i);
      if messages[i].sequence > sequence { result := result + [messages[i]]; }
    }
    CutNext(messages, sequence, |messages|);
  }

  function HistoryLimit(o: Options): nat { if o.trigger > 40 then o.trigger else 40 }

  function Window(o: Options, st: State, user: Message): seq<Message> {
    var messages := Last(st.log, HistoryLimit(o)) + [user];
    if st.summary.Some? then After(messages, st.summary.value.through) else messages
  }

  // ---------------------------------------------------------------- what the summary stands for

  function Summarised(digests: seq<Digest>): seq<Message> {
    if digests == [] then [] else Summarised(digests[..|digests| - 1]) + digests[|digests| - 1].batch
  }

  function LastText(digests: seq<Digest>): string {
    if digests == [] then "" else digests[|digests| - 1].content
  }

  /** Every stored summarizer call was given the text of the one before. */
  predicate Chained(digests: seq<Digest>) {
    forall i | 0 <= i < |digests| :: digests[i].previous == LastText(digests[..i])
  }

  /** The batches, in order, are exactly the messages up to the summary's sequence number. */
  predicate Faithful(st: State) {
    && Ordered(st.log)
    && Chained(st.digests)
    && Summarised(st.digests) == UpTo(st.log, Through(st.summary))
    && Count(st.summary) == |Summarised(st.digests)|
    && Content(st.summary) == LastText(st.digests)
    && (st.summary.Some? ==>
         Summarised(st.digests) != []
         && st.summary.value.through == Summarised(st.digests)[|Summarised(st.digests)| - 1].sequence)
  }

  lemma TailOrdered(log: seq<Message>)
    requires Ordered(log) && log != []
    ensures Ordered(log[1..]) && forall i | 0 <= i < |log[1..]| :: log[0].sequence < log[1..][i].sequence
  {
  }

  lemma {:induction false} NoneUpTo(log: seq<Message>, sequence: int)
    requires forall i | 0 <= i < |log| :: sequence < log[i].sequence
    ensures UpTo(log, sequence) == [] && After(log, sequence) == log
  {
    if log != [] { NoneUpTo(log[1..], sequence); }
  }

  lemma CutFirst(log: seq<Message>, sequence: int)
    requires log != []
    ensures UpTo(log, sequence) == if log[0].sequence <= sequence then [log[0]] + UpTo(log[1..], sequence)
      else UpTo(log[1..], sequence)
    ensures After(log, sequence) == if log[0].sequence <= sequence then After(log[1..], sequence)
      else [log[0]] + After(log[1..], sequence)
  {
  }

  lemma TailIndex(log: seq<Message>, k: nat)
    requires 0 < k <= |log|
    ensures [log[0]] + log[1..][..k - 1] == log[..k] && log[1..][k - 1..] == log[k..]
  {
  }

  /** In an ordered log, the messages up to a number and those after it are its two halves. */
  lemma {:induction false} SplitsAt(log: seq<Message>, sequence: int) returns (k: nat)
    requires Ordered(log)
    ensures k <= |log| && UpTo(log, sequence) == log[..k] && After(log, sequence) == log[k..]
    ensures forall i | 0 <= i < |log| :: log[i].sequence <= sequence <==> i < k
  {
    if log == [] {
      k := 0;
    } else if log[0].sequence > sequence {
      k := 0;
      assert forall i | 0 <= i < |log| :: sequence < log[i].sequence;
      NoneUpTo(log, sequence);
    } else {
      TailOrdered(log);
      CutFirst(log, sequence);
      hide Ordered, UpTo, After;
      var rest := SplitsAt(log[1..], sequence);
      k := rest + 1;
      TailIndex(log, k);
      forall i | 0 <= i < |log| ensures log[i].sequence <= sequence <==> i < k {
        if i > 0 { assert log[i] == log[1..][i - 1]; }
      }
    }
  }

  lemma UpToIs(log: seq<Message>, sequence: int, k: nat)
    requires Ordered(log) && k <= |log|
    requires forall i | 0 <= i < |log| :: log[i].sequence <= sequence <==> i < k
    ensures UpTo(log, sequence) == log[..k] && After(log, sequence) == log[k..]
  {
    var j := SplitsAt(log, sequence);
    assert j < |log| ==> (log[j].sequence <= sequence <==> j < k);
    assert k < |log| ==> (log[k].sequence <= sequence <==> k < j);
  }

  /** Cutting at the number of a message cuts just after it. */
  lemma CutAt(log: seq<Message>, k: nat)
    requires Ordered(log) && 0 < k <= |log|
    ensures UpTo(log, log[k - 1].sequence) == log[..k] && After(log, log[k - 1].sequence) == log[k..]
  {
    UpToIs(log, log[k - 1].sequence, k);
  }

  lemma BatchIsNext(o: Options, log: seq<Message>, through: int, latest: int) returns (k: nat, n: nat)
    requires o.Valid() && Ordered(log)
    ensures k + n <= |log| && UpTo(log, through) == log[..k] && Batch(o, log, through, latest) == log[k..k + n]
    ensures n > 0 ==> UpTo(log, log[k + n - 1].sequence) == log[..k + n]
  {
    k := SplitsAt(log, through);
    var j := SplitsAt(log, latest);
    var head := log[..j];
    var listed := First(After(head, through), MAX_BATCH);
    if k <= j {
      UpToIs(head, through, k);
      assert head[k..] == log[k..j];
    } else {
      UpToIs(head, through, j);
    }
    n := if |listed| < o.trigger then 0 else |listed| - o.keepRecent;
    assert k > j ==> listed == [];
    assert k <= j ==> listed <= log[k..j];
    assert Batch(o, log, through, latest) == listed[..n];
    assert n > 0 ==> listed[..n] == log[k..k + n];
    assert n == 0 ==> listed[..n] == log[k..k];
    hide Batch;
    if n > 0 { CutAt(log, k + n); }
  }

  /** In places of the log: of the at most thousand next messages up to the latest, all but the ones to keep, and none
      when there are fewer than the trigger. */
  lemma BatchExactly(o: Options, log: seq<Message>, through: int, latest: int, k: nat, j: nat)
    requires o.Valid() && Ordered(log) && k <= |log| && j <= |log|
    requires forall i | 0 <= i < |log| ::
      (log[i].sequence <= through <==> i < k) && (log[i].sequence <= latest <==> i < j)
    ensures var n := if j - k > 1_000 then 1_000 else j - k;
      Batch(o, log, through, latest) == if n < o.trigger then [] else log[k..k + (n - o.keepRecent)]
  {
    hide UpTo, After;
    UpToIs(log, latest, j);
    var head := log[..j];
    assert forall i | 0 <= i < j :: head[i] == log[i];
    UpToIs(head, through, if k <= j then k else j);
    if k <= j {
      assert head[k..] == log[k..j];
      assert forall n | 0 <= n <= j - k :: log[k..j][..n] == log[k..k + n];
    }
  }

  lemma SummarisedAppend(digests: seq<Digest>, d: Digest)
    ensures Summarised(digests + [d]) == Summarised(digests) + d.batch
  {
    assert (digests + [d])[..|digests|] == digests;
  }

  lemma ChainedAppend(digests: seq<Digest>, d: Digest)
    requires Chained(digests) && d.previous == LastText(digests)
    ensures Chained(digests + [d])
  {
    var all := digests + [d];
    forall i | 0 <= i < |all| ensures all[i].previous == LastText(all[..i]) {
      assert all[..i] == digests[..i];
      if i == |digests| { assert digests[..i] == digests; }
    }
  }

  lemma UpdateKeepsFaithful(o: Options, st: State, latest: int, r: Reply, w: Write)
    requires o.Valid() && Faithful(st)
    ensures Faithful(AfterUpdate(o, st, latest, r, w))
  {
    hide UpTo, Summarised, Ordered, Batch, Accepted, Chained;
    var next := AfterUpdate(o, st, latest, r, w);
    if next != st {
      var k, n := BatchIsNext(o, st.log, Through(st.summary), latest);
      var batch := st.log[k..k + n];
      var d := Digest(Content(st.summary), batch, Accepted(o, r).value);
      assert next.digests == st.digests + [d];
      SummarisedAppend(st.digests, d);
      ChainedAppend(st.digests, d);
      assert n > 0 && batch[n - 1] == st.log[k + n - 1];
      assert st.log[..k] + batch == st.log[..k + n];
    }
  }

  lemma {:induction false} UpToAppend(log: seq<Message>, m: Message, sequence: int)
    ensures UpTo(log + [m], sequence) == UpTo(log, sequence) + (if m.sequence <= sequence then [m] else [])
  {
    hide UpTo, After;
    UpToNothing(sequence);
    CutFirst(log + [m], sequence);
    if log == [] {
      assert log + [m] == [m] && [m][1..] == [];
    } else {
      assert (log + [m])[1..] == log[1..] + [m];
      CutFirst(log, sequence);
      UpToAppend(log[1..], m, sequence);
    }
  }

  lemma UpToNothing(sequence: int)
    ensures UpTo([], sequence) == []
  {
  }

  /** A message gets a number above those of the conversation. */
  predicate Follows(log: seq<Message>, m: Message) {
    m.sequence > 0 && (log == [] || m.sequence > log[|log| - 1].sequence)
  }

  lemma ThroughInLog(st: State)
    requires Faithful(st) && st.summary.Some?
    ensures st.log != [] && 0 < st.summary.value.through <= st.log[|st.log| - 1].sequence
  {
    var k := SplitsAt(st.log, st.summary.value.through);
    assert st.log[..k][k - 1] == st.log[k - 1];
  }

  lemma AppendKeepsFaithful(st: State, m: Message)
    requires Faithful(st) && Follows(st.log, m)
    ensures Faithful(st.(log := st.log + [m]))
  {
    UpToAppend(st.log, m, Through(st.summary));
    if st.summary.Some? { ThroughInLog(st); }
    AppendOrdered(st.log, m);
    hide UpTo, Summarised, Ordered, Chained;
  }

  lemma AppendOrdered(log: seq<Message>, m: Message)
    requires Ordered(log) && Follows(log, m)
    ensures Ordered(log + [m])
  {
  }

  datatype Event = Append(message: Message) | Update(latest: int, reply: Reply, write: Write)

  predicate Possible(st: State, e: Event) { e.Append? ==> Follows(st.log, e.message) }

  function Apply(o: Options, st: State, e: Event): State
    requires o.Valid()
  {
    match e
    case Append(m) => st.(log := st.log + [m])
    case Update(latest, r, w) => AfterUpdate(o, st, latest, r, w)
  }

  predicate Run(o: Options, st: State, events: seq<Event>)
    requires o.Valid()
    decreases |events|
  {
    events == [] || (Possible(st, events[0]) && Run(o, Apply(o, st, events[0]), events[1..]))
  }

  function Final(o: Options, st: State, events: seq<Event>): State
    requires o.Valid()
    decreases |events|
  {
    if events == [] then st else Final(o, Apply(o, st, events[0]), events[1..])
  }

  /** Whatever messages arrive, and whichever updates fail or lose their confirmation, each message up to the
      summary's number was handed over in exactly one stored batch, in order, and is counted once. */
  lemma {:induction false} EveryRunIsFaithful(o: Options, st: State, events: seq<Event>)
    requires o.Valid() && Faithful(st) && Run(o, st, events)
    ensures Faithful(Final(o, st, events))
    decreases |events|
  {
    hide Faithful, AfterUpdate;
    if events != [] {
      match events[0] {
        case Append(m) => AppendKeepsFaithful(st, m);
        case Update(latest, r, w) => UpdateKeepsFaithful(o, st, latest, r, w);
      }
      EveryRunIsFaithful(o, Apply(o, st, events[0]), events[1..]);
    }
  }

  lemma NewConversationIsFaithful()
    ensures Faithful(State([], None, []))
  {
  }

  // ---------------------------------------------------------------- what the model is shown

  function Unsummarised(st: State): seq<Message> { After(st.log, Through(st.summary)) }

  lemma {:induction false} NothingUpToZero(log: seq<Message>)
    requires Ordered(log)
    ensures UpTo(log, 0) == [] && After(log, 0) == log
  {
    UpToIs(log, 0, 0);
  }

  lemma RecentOrdered(log: seq<Message>, from: nat, user: Message)
    requires Ordered(log) && Follows(log, user) && from <= |log|
    ensures Ordered(log[from..] + [user])
  {
  }

  lemma RecentAfter(log: seq<Message>, from: nat, user: Message, through: int, k: nat)
    requires Ordered(log) && Follows(log, user) && from <= |log| && k <= |log| && through < user.sequence
    requires forall i | 0 <= i < |log| :: log[i].sequence <= through <==> i < k
    ensures After(log[from..] + [user], through) == (if k <= from then log[from..] else log[k..]) + [user]
  {
    hide After, UpTo;
    RecentOrdered(log, from, user);
    hide Ordered;
    var messages := log[from..] + [user];
    var j := if k <= from then 0 else k - from;
    assert forall i | 0 <= i < |log[from..]| :: messages[i] == log[from + i];
    UpToIs(messages, through, j);
    assert messages[j..] == (if k <= from then log[from..] else log[k..]) + [user];
  }

  /** The window shows the unsummarised messages that are recent enough, and the new one. */
  lemma WindowIs(o: Options, st: State, user: Message)
    requires Faithful(st) && Follows(st.log, user)
    ensures Window(o, st, user) == Last(Unsummarised(st), if o.trigger > 40 then o.trigger else 40) + [user]
  {
    hide UpTo, After, Summarised;
    var log, limit := st.log, HistoryLimit(o);
    if st.summary.Some? {
      var k := SplitsAt(log, st.summary.value.through);
      assert k > 0 && log[..k][k - 1] == log[k - 1];
      var from := |log| - |Last(log, limit)|;
      assert Last(log, limit) == log[from..];
      RecentAfter(log, from, user, st.summary.value.through, k);
      assert Last(log[k..], limit) == (if k <= from then log[from..] else log[k..]);
    } else {
      NothingUpToZero(log);
    }
  }

  /** Summarised messages and window together are the whole conversation, each message once and in order,
      exactly when the unsummarised messages fit into the window. */
  lemma HistoryIsComplete(o: Options, st: State, user: Message)
    requires Faithful(st) && Follows(st.log, user)
    ensures Summarised(st.digests) + Window(o, st, user) == st.log + [user] <==>
      |Unsummarised(st)| <= if o.trigger > 40 then o.trigger else 40
  {
    hide UpTo, After, Summarised, Window;
    WindowIs(o, st, user);
    var k := SplitsAt(st.log, Through(st.summary));
    var limit := HistoryLimit(o);
    if |Unsummarised(st)| <= limit {
      assert st.log[..k] + (st.log[k..] + [user]) == st.log + [user];
    } else {
      assert |Summarised(st.digests) + Window(o, st, user)| == k + limit + 1;
    }
  }

  /** A turn: the user's message, the answer, and an update that is not refused. */
  datatype Turn = Turn(user: Message, answer: Message, reply: Reply)

  predicate Completes(o: Options, st: State, t: Turn) {
    && Follows(st.log, t.user)
    && Follows(st.log + [t.user], t.answer)
    && Accepted(o, t.reply).Some?
  }

  function AfterTurn(o: Options, st: State, t: Turn): State
    requires o.Valid()
  {
    AfterUpdate(o, st.(log := st.log + [t.user] + [t.answer]), t.answer.sequence, t.reply, Confirmed)
  }

  /** An update up to the newest message leaves fewer unsummarised messages than the trigger. */
  lemma TurnCatchesUp(o: Options, st: State, t: Turn)
    requires o.Valid() && Faithful(st) && |Unsummarised(st)| < o.trigger && Completes(o, st, t)
    ensures Faithful(AfterTurn(o, st, t)) && |Unsummarised(AfterTurn(o, st, t))| < o.trigger
  {
    hide Faithful, Accepted, UpTo, After;
    var first := st.(log := st.log + [t.user]);
    var full := first.(log := first.log + [t.answer]);
    AppendKeepsFaithful(st, t.user);
    AppendKeepsFaithful(first, t.answer);
    assert full == st.(log := st.log + [t.user] + [t.answer]);
    UpdateKeepsFaithful(o, full, t.answer.sequence, t.reply, Confirmed);
    LeavesFew(o, st, full, t.answer.sequence, t.reply);
  }

  lemma ListedAll(log: seq<Message>, through: int, k: nat)
    requires Ordered(log) && k < |log| && After(log, through) == log[k..]
    ensures After(UpTo(log, log[|log| - 1].sequence), through) == log[k..]
  {
    hide After, UpTo, Ordered;
    CutAt(log, |log|);
    assert log[..|log|] == log;
  }

  lemma SliceOfSlice(log: seq<Message>, k: nat, cut: nat)
    requires k <= cut <= |log|
    ensures log[k..][..cut - k] == log[k..cut]
  {
  }

  /** At the trigger and within one batch, an update takes all but the messages to keep. */
  lemma TakesAllButRecent(o: Options, log: seq<Message>, through: int, k: nat)
    requires o.Valid() && Ordered(log) && k < |log| && After(log, through) == log[k..]
    requires o.trigger <= |log| - k <= MAX_BATCH
    ensures Batch(o, log, through, log[|log| - 1].sequence) == log[k..|log| - o.keepRecent]
  {
    hide After, UpTo, Ordered;
    ListedAll(log, through, k);
    SliceOfSlice(log, k, |log| - o.keepRecent);
  }

  lemma UnsummarisedAfter(st: State, log: seq<Message>) returns (k: nat)
    requires Faithful(st) && Ordered(log) && st.log <= log
    ensures k <= |log| && After(log, Through(st.summary)) == log[k..]
    ensures |log[k..]| <= |Unsummarised(st)| + |log| - |st.log|
  {
    hide UpTo, After, Summarised, Chained;
    k := SplitsAt(log, Through(st.summary));
    var k0 := SplitsAt(st.log, Through(st.summary));
    assert k < |st.log| ==> log[k] == st.log[k];
    assert k0 <= k;
  }

  lemma LeavesFew(o: Options, st: State, full: State, latest: int, r: Reply)
    requires o.Valid() && Faithful(st) && Faithful(full) && full.summary == st.summary && |full.log| == |st.log| + 2
    requires st.log <= full.log && |Unsummarised(st)| < o.trigger && full.log[|full.log| - 1].sequence == latest
    requires Accepted(o, r).Some?
    ensures |Unsummarised(AfterUpdate(o, full, latest, r, Confirmed))| < o.trigger
  {
    hide Accepted, UpTo, After, Summarised, Chained, Batch;
    var log, through := full.log, Through(full.summary);
    var k := UnsummarisedAfter(st, log);
    assert latest > 0;
    hide Ordered;
    if |log| - k >= o.trigger {
      TakesAllButRecent(o, log, through, k);
      var cut := |log| - o.keepRecent;
      CutAt(log, cut);
      assert log[k..cut][cut - k - 1] == log[cut - 1];
      assert Through(AfterUpdate(o, full, latest, r, Confirmed).summary) == log[cut - 1].sequence;
    } else {
      BatchNeedsTrigger(o, full, latest, k);
    }
  }

  lemma BatchNeedsTrigger(o: Options, full: State, latest: int, k: nat)
    requires o.Valid() && Ordered(full.log) && k <= |full.log|
      && After(full.log, Through(full.summary)) == full.log[k..]
    requires |full.log| - k < o.trigger && full.log != [] && full.log[|full.log| - 1].sequence == latest
    ensures Batch(o, full.log, Through(full.summary), latest) == []
  {
    hide After, UpTo, Ordered;
    CutAt(full.log, |full.log|);
    assert full.log[..|full.log|] == full.log;
  }

  predicate Turns(o: Options, st: State, turns: seq<Turn>)
    requires o.Valid()
    decreases |turns|
  {
    turns == [] || (Completes(o, st, turns[0]) && Turns(o, AfterTurn(o, st, turns[0]), turns[1..]))
  }

  function AfterTurns(o: Options, st: State, turns: seq<Turn>): State
    requires o.Valid()
    decreases |turns|
  {
    if turns == [] then st else AfterTurns(o, AfterTurn(o, st, turns[0]), turns[1..])
  }

  lemma {:induction false} TurnsCatchUp(o: Options, st: State, turns: seq<Turn>)
    requires o.Valid() && Faithful(st) && |Unsummarised(st)| < o.trigger && Turns(o, st, turns)
    ensures Faithful(AfterTurns(o, st, turns)) && |Unsummarised(AfterTurns(o, st, turns))| < o.trigger
    decreases |turns|
  {
    hide Faithful, Unsummarised, AfterTurn, Completes;
    if turns != [] {
      TurnCatchesUp(o, st, turns[0]);
      TurnsCatchUp(o, AfterTurn(o, st, turns[0]), turns[1..]);
    }
  }

  /** When the updates of all earlier turns ran, the model is shown the whole conversation: what the summary
      stands for, then the rest word for word, with no gap and nothing twice. */
  lemma NothingIsLost(o: Options, turns: seq<Turn>, user: Message)
    requires o.Valid() && Turns(o, State([], None, []), turns)
    requires Follows(AfterTurns(o, State([], None, []), turns).log, user)
    ensures var st := AfterTurns(o, State([], None, []), turns);
      Summarised(st.digests) + Window(o, st, user) == st.log + [user]
  {
    hide Faithful, AfterTurns, Turns, Summarised, Window;
    var start := State([], None, []);
    NewConversationIsFaithful();
    TurnsCatchUp(o, start, turns);
    HistoryIsComplete(o, AfterTurns(o, start, turns), user);
  }
}
