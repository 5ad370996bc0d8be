/**
 * The self-chat controller: which messages become stored forward sources, which are commands,
 * and that a command is executed at most once whatever is replayed.
 */
module Controller {
  import opened Prelude
  import opened Jobs

  // A chat address as delivered: the canonical JID and, for a companion, its device.
  datatype Address = Address(jid: Jid, device: Option<nat>)

  datatype ContentType = TextContent | ImageContent | VideoContent | DocumentContent

  // `text` is the trimmed message text; a timestamp that is not a number is None.
  datatype Message = Message(
    id: Option<string>, fromMe: bool, chat: Option<Address>, participant: Option<Address>, forwarded: bool,
    timestamp: Option<int>, text: Option<string>, quotedId: Option<string>, content: Option<ContentType>)

  datatype SourceKey = SourceKey(chat: Address, id: string)

  datatype Source = Source(message: Message, receivedAt: Instant, expiresAt: Option<Instant>)

  datatype Answer = Executed(source: Option<SourceKey>) | SourceUnavailable

  datatype Event =
    | Stored(message: Message)
    | Answered(message: Message, answer: Answer, own: seq<Jid>, startedAt: int, at: Instant)

  // The running process and the two tables that outlive it.
  datatype State = State(
    clock: Instant, own: seq<Jid>, startedAt: int, socket: Option<nat>,
    processed: set<string>, sources: map<SourceKey, Source>, trace: seq<Event>)

  datatype Step =
    | Tick(ms: nat)
    | Receive(messages: seq<Message>)
    | Handle(message: Message)
    | Attach(live: nat)
    | Detach
    | Restart(jids: seq<Jid>)

  const MEDIA_LIFETIME_MS: nat := 24 * 60 * 60 * 1000

  // ----- Reading a message -----

  predicate IsUser(jid: Jid) { jid.server.UserServer? || jid.server.LidServer? }

  predicate IsOwn(own: seq<Jid>, address: Address) { address.jid in own }

  // Sent by the account itself, in its own chat.
  predicate FromSelf(own: seq<Jid>, m: Message) {
    && m.fromMe && m.chat.Some? && IsUser(m.chat.value.jid) && IsOwn(own, m.chat.value)
    && (m.participant.Some? ==> IsOwn(own, m.participant.value))
  }

  predicate IsAuthorized(own: seq<Jid>, startedAt: int, m: Message) {
    FromSelf(own, m) && !m.forwarded && m.timestamp.Some? && startedAt - 30 <= m.timestamp.value
  }

  predicate IsCommand(m: Message) {
    m.text.Some? && m.text.value != "" && m.text.value[0] == '/'
  }

  predicate Storable(own: seq<Jid>, m: Message) {
    FromSelf(own, m) && m.id.Some? && m.forwarded && m.content.Some?
  }

  function Lower(c: char): char { if 'A' <= c <= 'Z' then (c as int + 32) as char else c }

  predicate StartsWith(text: string, prefix: string) {
    |prefix| <= |text| && forall i :: 0 <= i < |prefix| ==> Lower(text[i]) == prefix[i]
  }

  // What \s matches.
  predicate IsBlank(c: char) {
    var code := c as int;
    || 9 <= code <= 13 || 0x2000 <= code <= 0x200a
    || code in {0x20, 0xa0, 0x1680, 0x2028, 0x2029, 0x202f, 0x205f, 0x3000, 0xfeff}
  }

  predicate EndsWord(text: string, at: nat) {
    at == |text| || (at < |text| && IsBlank(text[at]))
  }

  predicate IsForwardCommand(text: string) {
    || (StartsWith(text, "/forward") && EndsWord(text, 8))
    || (StartsWith(text, "/forwardmulti") && EndsWord(text, 13))
    || (StartsWith(text, "/forwardset") && EndsWord(text, 11))
    || (StartsWith(text, "/forwardall") && EndsWord(text, 11))
  }

  // What the forward commands are: the message's first word, whatever its case, is one of four.
  const WHITE_SPACE: string :=
    "\t\n\r \U{b}\U{c}\U{a0}\U{1680}\U{2000}\U{2001}\U{2002}\U{2003}\U{2004}\U{2005}\U{2006}\U{2007}\U{2008}"
    + "\U{2009}\U{200a}\U{2028}\U{2029}\U{202f}\U{205f}\U{3000}\U{feff}"

  ghost function FirstWord(text: string): string {
    if text == [] || text[0] in WHITE_SPACE then [] else [text[0]] + FirstWord(text[1..])
  }

  ghost predicate SameButCase(text: string, word: string) {
    && |text| == |word|
    && forall i :: 0 <= i < |text| ==>
         text[i] == word[i] || ('A' <= text[i] <= 'Z' && text[i] as int + 32 == word[i] as int)
  }

  ghost predicate IsForwardWord(word: string) {
    SameButCase(word, "/forward") || SameButCase(word, "/forwardmulti") || SameButCase(word, "/forwardset")
    || SameButCase(word, "/forwardall")
  }

  lemma BlanksAreWhiteSpace(c: char)
    ensures IsBlank(c) <==> c in WHITE_SPACE
  {
  }

  lemma {:induction false} FirstWordEnds(text: string)
    ensures var n := |FirstWord(text)|;
      && n <= |text| && FirstWord(text) == text[..n] && EndsWord(text, n)
      && forall i :: 0 <= i < n ==> !IsBlank(text[i])
  {
    hide IsBlank;
    if text != [] {
      BlanksAreWhiteSpace(text[0]);
      if text[0] !in WHITE_SPACE {
        var rest := text[1..];
        FirstWordEnds(rest);
        var n := |FirstWord(rest)|;
        assert FirstWord(text) == text[..n + 1];
        forall i | 0 <= i < n + 1 ensures !IsBlank(text[i]) {
          if i > 0 { assert text[i] == rest[i - 1]; }
        }
        assert n < |rest| ==> rest[n] == text[n + 1];
      }
    }
  }

  lemma WordMatches(text: string, word: string)
    requires forall i :: 0 <= i < |word| ==> word[i] == '/' || 'a' <= word[i] <= 'z'
    ensures StartsWith(text, word) && EndsWord(text, |word|) <==> SameButCase(FirstWord(text), word)
  {
    FirstWordEnds(text);
    var n := |FirstWord(text)|;
    if StartsWith(text, word) && EndsWord(text, |word|) {
      assert forall i :: 0 <= i < |word| ==> Lower(text[i]) == word[i] && !IsBlank(text[i]);
      assert !(n < |word|) && !(|word| < n);
    }
  }

  lemma ForwardCommandsAreWords(text: string)
    ensures IsForwardCommand(text) <==> IsForwardWord(FirstWord(text))
  {
    WordMatches(text, "/forward");
    WordMatches(text, "/forwardmulti");
    WordMatches(text, "/forwardset");
    WordMatches(text, "/forwardall");
  }

  // A command to be obeyed, were it new: sent by the account, in its own user chat, as itself, not
  // forwarded, not older than the process by more than 30 s.
  ghost predicate Obeyed(own: seq<Jid>, startedAt: int, m: Message) {
    && m.fromMe && !m.forwarded && m.id.Some? && m.id.value != ""
    && m.chat.Some? && m.chat.value.jid in own && m.chat.value.jid.server in {UserServer, LidServer}
    && (m.participant.Some? ==> m.participant.value.jid in own)
    && m.timestamp.Some? && startedAt - 30 <= m.timestamp.value
    && m.text.Some? && m.text.value != "" && m.text.value[0] == '/'
  }

  // A stored message to forward: the account's own forwarded message with content.
  ghost predicate Kept(own: seq<Jid>, m: Message) {
    && m.fromMe && m.forwarded && m.id.Some? && m.content.Some?
    && m.chat.Some? && m.chat.value.jid in own && m.chat.value.jid.server in {UserServer, LidServer}
    && (m.participant.Some? ==> m.participant.value.jid in own)
  }

  // A forward is executed with the source it replies to, unless there is none or it has expired.
  ghost function ReplyTo(sources: map<SourceKey, Source>, m: Message, now: Instant): Answer
    requires m.text.Some?
  {
    if !IsForwardWord(FirstWord(m.text.value)) then Executed(None)
    else if m.chat.Some? && m.quotedId.Some? && m.quotedId.value != "" then
      var key := SourceKey(m.chat.value, m.quotedId.value);
      if key in sources && (sources[key].expiresAt.None? || now < sources[key].expiresAt.value)
      then Executed(Some(key)) else SourceUnavailable
    else SourceUnavailable
  }

  function QuotedKey(m: Message): Option<SourceKey> {
    if m.chat.Some? && m.quotedId.Some? && m.quotedId.value != ""
    then Some(SourceKey(m.chat.value, m.quotedId.value)) else None
  }

  predicate Expired(source: Source, now: Instant) {
    source.expiresAt.Some? && source.expiresAt.value <= now
  }

  // ----- Steps -----

  function SourceOf(m: Message, now: Instant): Source {
    Source(m, now, if m.content == Some(TextContent) then None else Some(now + MEDIA_LIFETIME_MS))
  }

  function Save(sources: map<SourceKey, Source>, key: SourceKey, source: Source): map<SourceKey, Source> {
    if key in sources then sources else sources[key := source]
  }

  function StoreOne(s: State, m: Message): State {
    if !Storable(s.own, m) then s
    else s.(sources := Save(s.sources, SourceKey(m.chat.value, m.id.value), SourceOf(m, s.clock)),
            trace := s.trace + [Stored(m)])
  }

  function StoreAll(s: State, messages: seq<Message>): State {
    if messages == [] then s
    else StoreOne(StoreAll(s, messages[..|messages| - 1]), messages[|messages| - 1])
  }

  function AnswerTo(s: State, m: Message): Answer
    requires m.text.Some?
  {
    var key := QuotedKey(m);
    if !IsForwardCommand(m.text.value) then Executed(None)
    else if key.Some? && key.value in s.sources && !Expired(s.sources[key.value], s.clock) then Executed(key)
    else SourceUnavailable
  }

  predicate Accepts(s: State, m: Message) {
    && IsAuthorized(s.own, s.startedAt, m) && s.socket.Some?
    && m.id.Some? && m.id.value != "" && IsCommand(m) && m.id.value !in s.processed
  }

  function ApplyHandle(s: State, m: Message): State {
    if !Accepts(s, m) then s
    else s.(processed := s.processed + {m.id.value},
            trace := s.trace + [Answered(m, AnswerTo(s, m), s.own, s.startedAt, s.clock)])
  }

  function Apply(s: State, step: Step): State {
    match step
    case Tick(ms) => s.(clock := s.clock + ms)
    case Receive(messages) => StoreAll(s, messages)
    case Handle(m) => ApplyHandle(s, m)
    case Attach(live) => s.(socket := Some(live))
    case Detach => s.(socket := None)
    case Restart(jids) => s.(own := jids, startedAt := s.clock / 1000, socket := None)
  }

  function Run(s: State, steps: seq<Step>): State {
    if steps == [] then s else Apply(Run(s, steps[..|steps| - 1]), steps[|steps| - 1])
  }

  lemma RunExtend(s: State, steps: seq<Step>, step: Step)
    ensures Run(s, steps + [step]) == Apply(Run(s, steps), step)
  {
    assert (steps + [step])[..|steps|] == steps;
  }

  predicate Initial(s: State) { s.processed == {} && s.sources == map[] && s.trace == [] }

  // ----- What every run keeps -----

  ghost predicate EventOk(s: State, e: Event) {
    match e
    case Stored(m) => m.forwarded && m.chat.Some? && m.id.Some? && SourceKey(m.chat.value, m.id.value) in s.sources
    case Answered(m, answer, own, startedAt, at) =>
      && IsAuthorized(own, startedAt, m) && IsCommand(m) && m.id.Some? && m.id.value in s.processed
      && (IsForwardCommand(m.text.value) <==> answer != Executed(None))
      && (answer.Executed? && answer.source.Some? ==>
            && answer.source == QuotedKey(m) && answer.source.value in s.sources
            && !Expired(s.sources[answer.source.value], at))
  }

  ghost predicate AnsweredOnce(trace: seq<Event>) {
    forall i, j :: 0 <= i < j < |trace| && trace[i].Answered? && trace[j].Answered?
      ==> trace[i].message.id != trace[j].message.id
  }

  ghost predicate SourceOk(s: State, key: SourceKey)
    requires key in s.sources
  {
    var source := s.sources[key];
    && source.message.chat == Some(key.chat) && source.message.id == Some(key.id)
    && source == SourceOf(source.message, source.receivedAt)
  }

  ghost predicate Sound(s: State) {
    && (forall i :: 0 <= i < |s.trace| ==> EventOk(s, s.trace[i]))
    && AnsweredOnce(s.trace)
    && (forall key :: key in s.sources ==> SourceOk(s, key))
  }

  lemma StoreOneSound(s: State, m: Message)
    requires Sound(s)
    ensures Sound(StoreOne(s, m))
  {
  }

  lemma {:induction false} StoreAllSound(s: State, messages: seq<Message>)
    requires Sound(s)
    ensures Sound(StoreAll(s, messages))
  {
    if messages != [] {
      StoreAllSound(s, messages[..|messages| - 1]);
      StoreOneSound(StoreAll(s, messages[..|messages| - 1]), messages[|messages| - 1]);
    }
  }

  lemma HandleSound(s: State, m: Message)
    requires Sound(s)
    ensures Sound(ApplyHandle(s, m))
  {
  }

  lemma {:induction false} RunSound(s: State, steps: seq<Step>)
    requires Sound(s)
    ensures Sound(Run(s, steps))
  {
    if steps != [] {
      var n := |steps| - 1;
      RunSound(s, steps[..n]);
      if steps[n].Receive? {
        StoreAllSound(Run(s, steps[..n]), steps[n].messages);
      } else if steps[n].Handle? {
        HandleSound(Run(s, steps[..n]), steps[n].message);
      }
    }
  }

  // ----- Main results -----

  // Over replays, concurrent handlers and restarts, no message id is answered twice.
  lemma ExecutedAtMostOnce(s: State, steps: seq<Step>, i: nat, j: nat)
    requires Initial(s) && i < j < |Run(s, steps).trace|
    requires Run(s, steps).trace[i].Answered? && Run(s, steps).trace[j].Answered?
    ensures Run(s, steps).trace[i].message.id != Run(s, steps).trace[j].message.id
  {
    RunSound(s, steps);
  }

  // Whatever is executed is a command the account itself sent in its own chat, as itself, not
  // forwarded and not older than the process that executed it by more than 30 s.
  lemma OnlyAuthorisedCommands(s: State, steps: seq<Step>, i: nat)
    requires Initial(s) && i < |Run(s, steps).trace| && Run(s, steps).trace[i].Answered?
    ensures var e := Run(s, steps).trace[i];
      && IsCommand(e.message) && e.message.fromMe && !e.message.forwarded
      && e.message.chat.Some? && e.message.chat.value.jid in e.own && IsUser(e.message.chat.value.jid)
      && (e.message.participant.Some? ==> e.message.participant.value.jid in e.own)
      && e.message.timestamp.Some? && e.startedAt - 30 <= e.message.timestamp.value
  {
    RunSound(s, steps);
  }

  predicate Delivers(step: Step, m: Message) {
    (step.Receive? && m in step.messages) || step == Handle(m)
  }

  ghost predicate Delivered(steps: seq<Step>, m: Message) {
    exists i :: 0 <= i < |steps| && Delivers(steps[i], m)
  }

  predicate SameMessage(a: Message, b: Message) { a.chat == b.chat && a.id == b.id }

  // A message is delivered as forwarded every time or never.
  ghost predicate OneForm(steps: seq<Step>) {
    forall a, b :: Delivered(steps, a) && Delivered(steps, b) && SameMessage(a, b) ==> a.forwarded == b.forwarded
  }

  lemma {:induction false} StoredWereReceived(s: State, messages: seq<Message>, i: nat)
    requires |s.trace| <= i < |StoreAll(s, messages).trace|
    ensures s.trace <= StoreAll(s, messages).trace && StoreAll(s, messages).trace[i].message in messages
  {
    if messages != [] {
      var n := |messages| - 1;
      var before := StoreAll(s, messages[..n]);
      TraceGrows(s, messages[..n]);
      if i < |before.trace| {
        StoredWereReceived(s, messages[..n], i);
      }
    }
  }

  lemma {:induction false} TraceGrows(s: State, messages: seq<Message>)
    ensures s.trace <= StoreAll(s, messages).trace
  {
    if messages != [] {
      TraceGrows(s, messages[..|messages| - 1]);
    }
  }

  // Whatever is stored or answered was delivered.
  lemma {:induction false} EventsWereDelivered(s: State, steps: seq<Step>, i: nat)
    requires Initial(s) && i < |Run(s, steps).trace|
    ensures Delivered(steps, Run(s, steps).trace[i].message)
  {
    var n := |steps| - 1;
    var before := Run(s, steps[..n]);
    if steps[n].Receive? {
      TraceGrows(before, steps[n].messages);
    }
    if i < |before.trace| {
      EventsWereDelivered(s, steps[..n], i);
      var k :| 0 <= k < n && Delivers(steps[..n][k], before.trace[i].message);
      assert Delivers(steps[k], before.trace[i].message);
    } else {
      if steps[n].Receive? {
        StoredWereReceived(before, steps[n].messages, i);
      }
      assert Delivers(steps[n], Run(s, steps).trace[i].message);
    }
  }

  // No chat and id is both stored as a forward source and executed, as long as a message is
  // delivered in one form only.
  lemma StoredNeverExecuted(s: State, steps: seq<Step>, i: nat, j: nat)
    requires Initial(s) && OneForm(steps) && i < |Run(s, steps).trace| && j < |Run(s, steps).trace|
    requires Run(s, steps).trace[i].Stored? && Run(s, steps).trace[j].Answered?
    ensures !SameMessage(Run(s, steps).trace[i].message, Run(s, steps).trace[j].message)
  {
    RunSound(s, steps);
    EventsWereDelivered(s, steps, i);
    EventsWereDelivered(s, steps, j);
  }

  const SELF := Jid("self", UserServer)

  function Note(forwarded: bool): Message {
    Message(
      Some("id"), true, Some(Address(SELF, None)), None, forwarded, Some(0), Some("/help"), None, Some(TextContent))
  }

  const FRESH := State(0, [SELF], 0, Some(0), {}, map[], [])

  // Delivered in both forms, one chat and id is stored and executed.
  lemma TwoFormsDoBoth()
    ensures Initial(FRESH)
    ensures var trace := Run(FRESH, [Receive([Note(true)]), Handle(Note(false))]).trace;
      && |trace| == 2 && trace[0].Stored? && trace[1].Answered? && SameMessage(trace[0].message, trace[1].message)
  {
    var stored := Apply(FRESH, Receive([Note(true)]));
    var batch := [Note(true)];
    assert batch[..0] == [] && StoreAll(FRESH, batch[..0]) == FRESH;
    assert StoreAll(FRESH, batch) == StoreOne(FRESH, batch[0]);
    assert stored == StoreOne(FRESH, Note(true));
    assert Run(FRESH, []) == FRESH;
    RunExtend(FRESH, [], Receive([Note(true)]));
    RunExtend(FRESH, [Receive([Note(true)])], Handle(Note(false)));
    assert [] + [Receive([Note(true)])] == [Receive([Note(true)])];
    assert [Receive([Note(true)])] + [Handle(Note(false))] == [Receive([Note(true)]), Handle(Note(false))];
    assert Accepts(stored, Note(false));
  }

  // A forward is executed only with a source stored from the same chat that had not expired.
  lemma ForwardsNeedALiveSource(s: State, steps: seq<Step>, i: nat)
    requires Initial(s) && i < |Run(s, steps).trace| && Run(s, steps).trace[i].Answered?
    requires IsCommand(Run(s, steps).trace[i].message) && IsForwardCommand(Run(s, steps).trace[i].message.text.value)
    requires Run(s, steps).trace[i].answer.Executed?
    ensures var e, after := Run(s, steps).trace[i], Run(s, steps);
      && e.answer.source.Some? && e.answer.source.value in after.sources
      && var source := after.sources[e.answer.source.value];
         && source.message.chat == e.message.chat && source.message.id == e.message.quotedId
         && (source.expiresAt.Some? ==> e.at < source.expiresAt.value == source.receivedAt + MEDIA_LIFETIME_MS)
         && (source.expiresAt.None? <==> source.message.content == Some(TextContent))
  {
    RunSound(s, steps);
  }

  lemma {:induction false} StoreAllKeeps(s: State, messages: seq<Message>, key: SourceKey)
    requires key in s.sources
    ensures key in StoreAll(s, messages).sources && StoreAll(s, messages).sources[key] == s.sources[key]
  {
    if messages != [] {
      StoreAllKeeps(s, messages[..|messages| - 1], key);
    }
  }

  // A stored source is never changed: replays do not extend its life.
  lemma {:induction false} SourcesFrozen(s: State, steps: seq<Step>, key: SourceKey)
    requires key in s.sources
    ensures key in Run(s, steps).sources && Run(s, steps).sources[key] == s.sources[key]
  {
    if steps != [] {
      var n := |steps| - 1;
      SourcesFrozen(s, steps[..n], key);
      if steps[n].Receive? {
        StoreAllKeeps(Run(s, steps[..n]), steps[n].messages, key);
      }
    }
  }

  lemma {:induction false} StoreAllStores(s: State, messages: seq<Message>, k: nat)
    requires k < |messages| && Storable(s.own, messages[k])
    ensures SourceKey(messages[k].chat.value, messages[k].id.value) in StoreAll(s, messages).sources
    ensures StoreAll(s, messages).own == s.own
  {
    var n := |messages| - 1;
    StoreAllFrame(s, messages[..n]);
    if k < n {
      StoreAllStores(s, messages[..n], k);
    }
  }

  lemma {:induction false} StoreAllFrame(s: State, messages: seq<Message>)
    ensures var after := StoreAll(s, messages);
      after == s.(sources := after.sources, trace := after.trace)
  {
    if messages != [] {
      StoreAllFrame(s, messages[..|messages| - 1]);
    }
  }

  // A source delivered in a batch is there for a reply in the same batch, before or after it,
  // and for any later reply: while it has not expired, the reply is executed with it.
  lemma SourceVisibleInBatch(s: State, batch: seq<Message>, k: nat, later: seq<Step>, reply: Message)
    requires k < |batch| && Storable(s.own, batch[k]) && batch[k].id.value != ""
    requires var now := Run(Apply(s, Receive(batch)), later); Accepts(now, reply)
    requires IsForwardCommand(reply.text.value) && reply.chat == batch[k].chat && reply.quotedId == batch[k].id
    ensures var now := Run(Apply(s, Receive(batch)), later);
      && QuotedKey(reply).Some? && QuotedKey(reply).value in now.sources
      && Apply(now, Handle(reply)).trace == now.trace + [Answered(
           reply,
           if Expired(now.sources[QuotedKey(reply).value], now.clock) then SourceUnavailable
           else Executed(QuotedKey(reply)),
           now.own, now.startedAt, now.clock)]
  {
    StoreAllStores(s, batch, k);
    SourcesFrozen(Apply(s, Receive(batch)), later, SourceKey(batch[k].chat.value, batch[k].id.value));
  }

  // ----- The objects -----

  class ControllerRepository {
    var processed: set<string>

    constructor ()
      ensures processed == {}
    {
      processed := {};
    }

    // INSERT OR IGNORE: true exactly for the first caller with this id.
    method MarkProcessed(id: string) returns (first: bool)
      modifies this
      ensures first <==> id !in old(processed)
      ensures processed == old(processed) + {id}
    {
      first := id !in processed;
      processed := processed + {id};
    }
  }

  datatype ResolveError = Ambiguous

  class ForwardSourceRepository {
    var sources: map<SourceKey, Source>

    constructor ()
      ensures sources == map[]
    {
      sources := map[];
    }

    // The first write of a key wins.
    method SaveSource(key: SourceKey, source: Source)
      modifies this
      ensures sources == Save(old(sources), key, source)
    {
      if key !in sources {
        sources := sources[key := source];
      }
    }

    method Get(key: SourceKey) returns (r: Option<Source>)
      ensures r.Some? <==> key in sources
      ensures r.Some? ==> r.value == sources[key]
    {
      return if key in sources then Some(sources[key]) else None;
    }

    // By message id alone; refused when two chats have a source with that id.
    method ResolveId(id: string) returns (r: Result<Option<SourceKey>, ResolveError>)
      ensures r.Err? <==>
        exists a, b :: a in sources && b in sources && a != b && a.id == b.id == id
      ensures r.Ok? && r.value.Some? ==> r.value.value in sources && r.value.value.id == id
      ensures r.Ok? && r.value.None? ==> forall key :: key in sources ==> key.id != id
    {
      var left := sources.Keys;
      var found: Option<SourceKey> := None;
      while left != {}
        invariant left <= sources.Keys
        invariant found.Some? ==> found.value in sources && found.value.id == id && found.value !in left
        invariant forall key :: key in sources && key !in left && key.id == id ==> found == Some(key)
      {
        var key :| key in left;
        left := left - {key};
        if key.id == id {
          if found.Some? {
            return Err(Ambiguous);
          }
          found := Some(key);
        }
      }
      return Ok(found);
    }
  }

  // What callbacks and other handlers of the same process do at an await.
  predicate SameProcess(steps: seq<Step>) {
    forall i :: 0 <= i < |steps| ==> !steps[i].Restart?
  }

  // The steps of one upsert: its sources, then each message and what happens while it is answered.
  function Script(messages: seq<Message>, around: seq<seq<Step>>): seq<Step> {
    if messages == [] then []
    else
      var n := |messages| - 1;
      Script(messages[..n], around) + [Handle(messages[n])] + if n < |around| then around[n] else []
  }

  // How many of the messages are accepted when their turn comes.
  function AcceptedIn(s: State, messages: seq<Message>, around: seq<seq<Step>>): nat {
    if messages == [] then 0
    else
      var n := |messages| - 1;
      AcceptedIn(s, messages[..n], around)
      + if Accepts(Run(s, Script(messages[..n], around)), messages[n]) then 1 else 0
  }

  // With nobody in between, an upsert stores exactly the kept messages under new keys, and answers the
  // obeyed ones with new ids, once each.
  ghost predicate UpsertOf(s: State, messages: seq<Message>, accepted: nat, after: State) {
    && (forall key :: key in after.sources <==>
          key in s.sources
          || exists m :: m in messages && Kept(s.own, m) && key == SourceKey(m.chat.value, m.id.value))
    && (forall key :: key in s.sources && key in after.sources ==> after.sources[key] == s.sources[key])
    && (forall key :: key in after.sources && key !in s.sources ==>
          exists m :: m in messages && Kept(s.own, m) && key == SourceKey(m.chat.value, m.id.value)
                      && after.sources[key] == SourceOf(m, s.clock))
    && (forall id :: id in after.processed <==>
          id in s.processed || exists m :: m in messages && Answers(s, m) && m.id == Some(id))
    && |after.processed| == |s.processed| + accepted
  }

  ghost predicate Answers(s: State, m: Message) {
    Obeyed(s.own, s.startedAt, m) && s.socket.Some?
  }

  lemma {:induction false} SourcesOf(s: State, messages: seq<Message>)
    ensures var after := StoreAll(s, messages);
      && after == s.(sources := after.sources, trace := after.trace)
      && (forall key :: key in after.sources <==>
            key in s.sources
            || exists m :: m in messages && Kept(s.own, m) && key == SourceKey(m.chat.value, m.id.value))
      && (forall key :: key in s.sources && key in after.sources ==> after.sources[key] == s.sources[key])
      && (forall key :: key in after.sources && key !in s.sources ==>
            exists m :: m in messages && Kept(s.own, m) && key == SourceKey(m.chat.value, m.id.value)
                        && after.sources[key] == SourceOf(m, s.clock))
  {
    if messages != [] {
      var n := |messages| - 1;
      SourcesOf(s, messages[..n]);
      assert messages == messages[..n] + [messages[n]];
      assert Storable(s.own, messages[n]) <==> Kept(s.own, messages[n]);
    }
  }

  lemma {:induction false} AnsweredOf(s: State, messages: seq<Message>)
    ensures var after := Run(s, Script(messages, []));
      && after == s.(processed := after.processed, trace := after.trace)
      && (forall id :: id in after.processed <==>
            id in s.processed || exists m :: m in messages && Answers(s, m) && m.id == Some(id))
      && |after.processed| == |s.processed| + AcceptedIn(s, messages, [])
  {
    if messages != [] {
      var n := |messages| - 1;
      var before := Run(s, Script(messages[..n], []));
      AnsweredOf(s, messages[..n]);
      assert messages == messages[..n] + [messages[n]];
      assert Script(messages, []) == Script(messages[..n], []) + [Handle(messages[n])];
      RunExtend(s, Script(messages[..n], []), Handle(messages[n]));
      AcceptsExactly(before, messages[n]);
      hide Run, Script, Accepts, Obeyed, AnswerTo;
      assert AcceptedIn(s, messages, [])
        == AcceptedIn(s, messages[..n], []) + if Accepts(before, messages[n]) then 1 else 0;
    }
  }

  lemma AcceptsExactly(s: State, m: Message)
    ensures Accepts(s, m) <==> Answers(s, m) && m.id.value !in s.processed
    ensures Answers(s, m) ==> m.id.Some?
  {
  }

  lemma UpsertIs(s: State, messages: seq<Message>)
    ensures var stored := StoreAll(s, messages);
      UpsertOf(s, messages, AcceptedIn(stored, messages, []), Run(stored, Script(messages, [])))
  {
    var stored := StoreAll(s, messages);
    SourcesOf(s, messages);
    AnsweredOf(stored, messages);
    assert forall m :: Answers(stored, m) <==> Answers(s, m);
    hide StoreAll, Run, Script, AcceptedIn, Answers, Kept, SourceOf;
  }

  class SelfChatController {
    const own: seq<Jid>
    const startedAt: int
    const repository: ControllerRepository
    const forwardSources: ForwardSourceRepository
    var socket: Option<nat>
    // The sockets that carry this controller's upsert listener.
    var listening: set<nat>
    var clock: Instant
    var trace: seq<Event>

    function View(): State
      reads this, repository, forwardSources
    {
      State(clock, own, startedAt, socket, repository.processed, forwardSources.sources, trace)
    }

    // The listener is on the attached socket and on no other.
    predicate Valid()
      reads this
    {
      listening == if socket.Some? then {socket.value} else {}
    }

    constructor (own: seq<Jid>, clock: Instant, repository: ControllerRepository, sources: ForwardSourceRepository)
      ensures Valid() && socket.None? && this.repository == repository && forwardSources == sources
      ensures this.own == own && this.clock == clock && startedAt == clock / 1000 && trace == []
    {
      this.own, this.clock, this.startedAt := own, clock, clock / 1000;
      this.repository, this.forwardSources := repository, sources;
      this.socket, this.listening, this.trace := None, {}, [];
    }

    // Moves the listener to this socket.
    method AttachTo(live: nat)
      requires Valid()
      modifies this`socket, this`listening
      ensures Valid() && listening == {live} && View() == Apply(old(View()), Attach(live))
    {
      if socket == Some(live) {
        return;
      }
      DetachFrom();
      listening := listening + {live};
      socket := Some(live);
    }

    method DetachFrom()
      requires Valid()
      modifies this`socket, this`listening
      ensures Valid() && listening == {} && View() == Apply(old(View()), Detach)
    {
      if socket.Some? {
        listening := listening - {socket.value};
      }
      socket := None;
    }

    method Meanwhile(steps: seq<Step>)
      requires Valid() && SameProcess(steps)
      modifies this, repository, forwardSources
      ensures Valid() && View() == Run(old(View()), steps)
    {
      for i := 0 to |steps|
        invariant Valid() && View() == Run(old(View()), steps[..i])
      {
        StepFrame(View(), steps[i]);
        var after := Apply(View(), steps[i]);
        RunExtend(old(View()), steps[..i], steps[i]);
        assert steps[..i + 1] == steps[..i] + [steps[i]];
        clock, trace := after.clock, after.trace;
        repository.processed, forwardSources.sources := after.processed, after.sources;
        socket, listening := after.socket, if after.socket.Some? then {after.socket.value} else {};
      }
      assert steps[..|steps|] == steps;
    }

    method StoreForwardSource(m: Message)
      modifies this`trace, forwardSources
      ensures View() == StoreOne(old(View()), m)
      ensures !Kept(own, m) ==> View() == old(View())
      ensures Kept(own, m) ==>
        var key := SourceKey(m.chat.value, m.id.value);
        && trace == old(trace) + [Stored(m)]
        && forwardSources.sources == if key in old(forwardSources.sources) then old(forwardSources.sources)
             else old(forwardSources.sources)[key := Source(
               m, clock, if m.content.value.TextContent? then None else Some(clock + 86400000))]
    {
      if m.chat.None? || m.id.None? || !m.fromMe || !IsUser(m.chat.value.jid) {
        return;
      }
      if m.chat.value.jid !in own {
        return;
      }
      if m.participant.Some? && m.participant.value.jid !in own {
        return;
      }
      if !m.forwarded || m.content.None? {
        return;
      }
      var expiresAt := if m.content.value.TextContent? then None else Some(clock + 24 * 60 * 60 * 1000);
      forwardSources.SaveSource(SourceKey(m.chat.value, m.id.value), Source(m, clock, expiresAt));
      trace := trace + [Stored(m)];
    }

    // Up to the await of the command's execution.
    method HandleMessage(m: Message) returns (accepted: bool)
      modifies this`trace, repository
      ensures accepted <==> Accepts(old(View()), m)
      ensures accepted <==> Obeyed(own, startedAt, m) && socket.Some? && m.id.value !in old(repository.processed)
      ensures !accepted ==> View() == old(View())
      ensures accepted ==>
        && repository.processed == old(repository.processed) + {m.id.value}
        && trace == old(trace) + [Answered(m, ReplyTo(forwardSources.sources, m, clock), own, startedAt, clock)]
      ensures View() == Apply(old(View()), Handle(m))
    {
      if !IsAuthorized(own, startedAt, m) || socket.None? || m.id.None? || m.id.value == "" || !IsCommand(m) {
        return false;
      }
      var before := View();
      var first := repository.MarkProcessed(m.id.value);
      if !first {
        assert repository.processed == before.processed;
        return false;
      }
      var isForward := IsForwardCommand(m.text.value);
      ForwardCommandsAreWords(m.text.value);
      var source: Option<Source> := None;
      var key := QuotedKey(m);
      if key.Some? {
        source := forwardSources.Get(key.value);
      }
      var answer := if isForward && (source.None? || Expired(source.value, clock)) then SourceUnavailable
                    else Executed(if isForward then key else None);
      trace := trace + [Answered(m, answer, own, startedAt, clock)];
      return true;
    }

    method StoreForwardSources(messages: seq<Message>)
      modifies this`trace, forwardSources
      ensures View() == Apply(old(View()), Receive(messages))
    {
      hide StoreOne;
      for i := 0 to |messages|
        invariant View() == StoreAll(old(View()), messages[..i])
      {
        assert messages[..i + 1][..i] == messages[..i];
        StoreForwardSource(messages[i]);
      }
      assert messages[..|messages|] == messages;
    }

    // All sources of the batch are stored before any of its commands runs; an upsert that is not
    // a live notification is ignored. The call is exactly this run of steps.
    method HandleUpsert(messages: seq<Message>, live: bool, around: seq<seq<Step>>) returns (accepted: nat)
      requires Valid() && forall i :: 0 <= i < |around| ==> SameProcess(around[i])
      modifies this, repository, forwardSources
      ensures Valid()
      ensures !live ==> View() == old(View()) && accepted == 0
      ensures live ==> View() == Run(Apply(old(View()), Receive(messages)), Script(messages, around))
      ensures live ==> accepted == AcceptedIn(Apply(old(View()), Receive(messages)), messages, around)
      ensures live && around == [] ==> UpsertOf(old(View()), messages, accepted, View())
    {
      accepted := 0;
      if !live {
        return;
      }
      UpsertIs(View(), messages);
      StoreForwardSources(messages);
      ghost var stored := View();
      assert Run(stored, []) == stored;
      hide Run, Apply, Accepts;
      for i := 0 to |messages|
        invariant Valid() && View() == Run(stored, Script(messages[..i], around))
        invariant accepted == AcceptedIn(stored, messages[..i], around)
      {
        ghost var soFar := Script(messages[..i], around);
        var others := if i < |around| then around[i] else [];
        assert messages[..i + 1][..i] == messages[..i];
        RunExtend(stored, soFar, Handle(messages[i]));
        var done := HandleMessage(messages[i]);
        accepted := accepted + if done then 1 else 0;
        RunConcat(stored, soFar + [Handle(messages[i])], others);
        Meanwhile(others);
      }
      assert messages[..|messages|] == messages;
    }
  }

  lemma StepFrame(s: State, step: Step)
    requires !step.Restart?
    ensures Apply(s, step).own == s.own && Apply(s, step).startedAt == s.startedAt
  {
    if step.Receive? {
      StoreAllFrame(s, step.messages);
    }
  }

  lemma {:induction false} RunConcat(s: State, first: seq<Step>, second: seq<Step>)
    ensures Run(s, first + second) == Run(Run(s, first), second)
  {
    if second == [] {
      assert first + second == first;
    } else {
      var n := |second| - 1;
      RunConcat(s, first, second[..n]);
      assert first + second == (first + second[..n]) + [second[n]];
      RunExtend(s, first + second[..n], second[n]);
    }
  }
}
