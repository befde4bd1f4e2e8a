/** The composer's drafts (`apps/anila-shell/src/chat.jsx`, `Composer`).

    A draft is text, attachments and skills.  It moves between the input box, the list of
    recoverable drafts of each conversation, and sends whose answer has not come back.  An
    event is one key press, one answer or one conversation change.  */
module DraftProtocol {
  import opened Basics

  /** `conversationId`: `None` before the conversation exists. */
  type Conv = Option<nat>

  datatype Att = Att(id: nat, uploading: bool)

  datatype Draft = Draft(text: string, atts: seq<Att>, skills: seq<nat>)

  datatype Entry = Entry(id: nat, draft: Draft)

  /** A send whose promise is pending.  `epoch` is history: how often the in-flight keys
      had been cleared when it was sent. */
  datatype Pending = Pending(draft: Draft, key: string, conv: Conv, epoch: nat)

  /** What a send answers: success, plain `false`, or a failure tagged with a conversation. */
  datatype Answer = Sent | Rejected | RejectedIn(conv: Conv)

  /** What `onSend` does at once: throw, return a value, or return a promise. */
  datatype Reply = Threw | Now(answer: Answer) | Later

  datatype State = State(
    box: Draft,                       // textRef, attsRef, skillRef
    lists: map<Conv, seq<Entry>>,     // recoverableRef and recoverableByConvRef
    stored: map<nat, string>,         // sessionStorage drafts
    conv: Conv,
    nextEntry: nat,
    inflight: map<string, nat>,       // inflightSendsRef: key -> ticket
    pending: map<nat, Pending>,
    nextSend: nat,
    insertToken: Option<nat>,
    restoreToken: Option<nat>,
    epoch: nat)

  /** `Submit` carries what the redaction gate, the audience prompt (`prepared`) and the
      key function answer, and how `onSend` replies.  */
  datatype Event =
    | Type(draft: Draft)
    | Submit(gate: bool, prepared: bool, key: string, reply: Reply)
    | Finish(send: nat, answer: Answer)
    | Insert(text: string, token: nat)
    | Restore(id: nat)
    | Discard(id: nat)
    | TakeBack(conv: Conv, text: string, token: nat)
    | Switch(conv: Conv)

  // ---------------------------------------------------------------- text and lists

  /** The characters JavaScript's `trim` removes. */
  predicate IsSpace(c: char) {
    || '\t' <= c <= '\r' || c == ' ' || c == '\U{A0}' || c == '\U{1680}' || '\U{2000}' <= c <= '\U{200A}'
    || c == '\U{2028}' || c == '\U{2029}' || c == '\U{202F}' || c == '\U{205F}' || c == '\U{3000}' || c == '\U{FEFF}'
  }

  function TrimLeft(s: string): string {
    if s != "" && IsSpace(s[0]) then TrimLeft(s[1..]) else s
  }

  function TrimRight(s: string): string {
    if s != "" && IsSpace(s[|s| - 1]) then TrimRight(s[..|s| - 1]) else s
  }

  function Trim(s: string): string {
    TrimRight(TrimLeft(s))
  }

  lemma {:induction false} TrimRightEnds(s: string)
    ensures TrimRight(s) == "" || !IsSpace(TrimRight(s)[|TrimRight(s)| - 1])
    ensures TrimRight(s) <= s
    decreases |s|
  {
    if s != "" && IsSpace(s[|s| - 1]) {
      TrimRightEnds(s[..|s| - 1]);
    }
  }

  lemma {:induction false} TrimLeftStarts(s: string)
    ensures TrimLeft(s) == "" || !IsSpace(TrimLeft(s)[0])
    decreases |s|
  {
    if s != "" && IsSpace(s[0]) {
      TrimLeftStarts(s[1..]);
    }
  }

  lemma TrimTwice(s: string)
    ensures Trim(Trim(s)) == Trim(s)
  {
    TrimLeftStarts(s);
    TrimRightEnds(TrimLeft(s));
  }

  ghost predicate AllSpace(s: string) {
    forall i | 0 <= i < |s| :: IsSpace(s[i])
  }

  lemma SpaceCons(c: char, l: string)
    requires IsSpace(c) && AllSpace(l)
    ensures AllSpace([c] + l)
  {
  }

  lemma SpaceSnoc(l: string, c: char)
    requires IsSpace(c) && AllSpace(l)
    ensures AllSpace(l + [c])
  {
  }

  lemma {:induction false} TrimLeftIs(s: string) returns (l: string)
    ensures s == l + TrimLeft(s) && AllSpace(l)
  {
    if s != "" && IsSpace(s[0]) {
      var l1 := TrimLeftIs(s[1..]);
      l := [s[0]] + l1;
      SpaceCons(s[0], l1);
      assert s == [s[0]] + s[1..];
    } else {
      l := "";
    }
  }

  lemma {:induction false} TrimRightIs(s: string) returns (r: string)
    ensures s == TrimRight(s) + r && AllSpace(r)
    decreases |s|
  {
    if s != "" && IsSpace(s[|s| - 1]) {
      var r1 := TrimRightIs(s[..|s| - 1]);
      r := r1 + [s[|s| - 1]];
      SpaceSnoc(r1, s[|s| - 1]);
      assert s == s[..|s| - 1] + [s[|s| - 1]];
    } else {
      r := "";
    }
  }

  /** `trim` removes the whitespace at both ends, spaces, tabs and newlines among it, and
      nothing else. */
  lemma TrimIs(s: string)
    ensures exists l, r :: s == l + Trim(s) + r && AllSpace(l) && AllSpace(r)
    ensures Trim(s) != "" ==> !IsSpace(Trim(s)[0]) && !IsSpace(Trim(s)[|Trim(s)| - 1])
    ensures IsSpace(' ') && IsSpace('\t') && IsSpace('\n') && IsSpace('\r') && forall c | '!' <= c <= '~' :: !IsSpace(c)
  {
    var l := TrimLeftIs(s);
    var r := TrimRightIs(TrimLeft(s));
    assert s == l + Trim(s) + r;
    TrimLeftStarts(s);
    TrimRightEnds(TrimLeft(s));
  }

  /** `applySkills` keeps the first occurrence of each skill. */
  function Distinct(list: seq<nat>, kept: seq<nat>): seq<nat> {
    if list == [] then kept
    else Distinct(list[1..], if list[0] in kept then kept else kept + [list[0]])
  }

  predicate NoRepeats(s: seq<nat>) {
    forall i, j | 0 <= i < j < |s| :: s[i] != s[j]
  }

  lemma {:induction false} DistinctHasNoRepeats(list: seq<nat>, kept: seq<nat>)
    requires NoRepeats(kept)
    ensures NoRepeats(Distinct(list, kept))
    decreases |list|
  {
    if list != [] {
      DistinctHasNoRepeats(list[1..], if list[0] in kept then kept else kept + [list[0]]);
    }
  }

  lemma {:induction false} DistinctHasAll(list: seq<nat>, kept: seq<nat>)
    ensures forall x :: x in Distinct(list, kept) <==> x in kept || x in list
    ensures kept <= Distinct(list, kept)
    decreases |list|
  {
    if list != [] {
      assert list == [list[0]] + list[1..];
      DistinctHasAll(list[1..], if list[0] in kept then kept else kept + [list[0]]);
    }
  }

  lemma {:induction false} DistinctOfDistinct(list: seq<nat>, kept: seq<nat>)
    requires NoRepeats(kept + list)
    ensures Distinct(list, kept) == kept + list
    decreases |list|
  {
    if list == [] {
      assert kept + list == kept;
    } else {
      assert (kept + list)[|kept|] == list[0];
      forall i | 0 <= i < |kept|
        ensures kept[i] != list[0]
      {
        assert (kept + list)[i] == kept[i];
      }
      assert kept + [list[0]] + list[1..] == kept + list;
      DistinctOfDistinct(list[1..], kept + [list[0]]);
    }
  }

  function ListOf(s: State, conv: Conv): seq<Entry> {
    if conv in s.lists then s.lists[conv] else []
  }

  /** The recoverable drafts of the conversation shown. */
  function List(s: State): seq<Entry> {
    ListOf(s, s.conv)
  }

  function Without(es: seq<Entry>, id: nat): seq<Entry> {
    if es == [] then [] else (if es[0].id == id then [] else [es[0]]) + Without(es[1..], id)
  }

  predicate Has(es: seq<Entry>, id: nat) {
    exists i :: 0 <= i < |es| && es[i].id == id
  }

  /** `find`: the first entry with this id. */
  function Pick(es: seq<Entry>, id: nat): (e: Entry)
    requires Has(es, id)
    ensures e.id == id && e in es
  {
    if es[0].id == id then es[0]
    else
      assert exists i :: 1 <= i < |es| && es[i].id == id;
      assert forall i | 1 <= i < |es| :: es[1..][i - 1] == es[i];
      Pick(es[1..], id)
  }

  predicate Blank(d: Draft) {
    Trim(d.text) == "" && d.atts == [] && d.skills == []
  }

  /** A draft up to surrounding whitespace. */
  function Norm(d: Draft): Draft {
    d.(text := Trim(d.text))
  }

  // ---------------------------------------------------------------- the steps

  function Publish(s: State, es: seq<Entry>): State {
    s.(lists := s.lists[s.conv := es])
  }

  /** `retainRecoverable`. */
  function Retain(s: State, d: Draft): (z: State)
    ensures z == s.(lists := z.lists, nextEntry := s.nextEntry + 1)
  {
    Publish(s.(nextEntry := s.nextEntry + 1), List(s) + [Entry(s.nextEntry, d)])
  }

  /** `writeDraftNow`. */
  function WriteNow(s: State, text: string): (z: State)
    ensures z == s.(stored := z.stored)
  {
    if s.conv.None? then s
    else if text != "" then s.(stored := s.stored[s.conv.value := text])
    else s.(stored := s.stored - {s.conv.value})
  }

  function SetBox(s: State, text: string, atts: seq<Att>, skills: seq<nat>): State {
    s.(box := Draft(text, atts, Distinct(skills, [])))
  }

  function DoType(s: State, d: Draft): State {
    SetBox(s, d.text, d.atts, d.skills)
  }

  /** The guards of `submit` before the in-flight test. */
  predicate MaySubmit(s: State, gate: bool, prepared: bool) {
    && !(Trim(s.box.text) == "" && s.box.atts == [])
    && (forall a | a in s.box.atts :: !a.uploading)
    && gate && prepared
  }

  predicate Held(s: State, key: string) {
    key != "" && key in s.inflight
  }

  function Release(s: State, send: nat, key: string): (z: State)
    ensures z == s.(inflight := z.inflight)
  {
    if key != "" && key in s.inflight && s.inflight[key] == send then s.(inflight := s.inflight - {key}) else s
  }

  function Snapshot(s: State): Draft {
    Draft(Trim(s.box.text), s.box.atts, s.box.skills)
  }

  /** The key is registered and the send identified. */
  function Ticketed(s: State, key: string): State {
    s.(nextSend := s.nextSend + 1, inflight := if key != "" then s.inflight[key := s.nextSend] else s.inflight)
  }

  /** The box is cleared and its draft is in flight. */
  function Launched(s: State, key: string): State {
    Emptied(Ticketed(s, key).(pending := s.pending[s.nextSend := Pending(Snapshot(s), key, s.conv, s.epoch)]))
  }

  function Emptied(s: State): State {
    WriteNow(SetBox(s, "", [], []), "")
  }

  function DoSubmit(s: State, gate: bool, prepared: bool, key: string, reply: Reply): State {
    if !MaySubmit(s, gate, prepared) || Held(s, key) then s
    else
      match reply
      case Threw => Release(Ticketed(s, key), s.nextSend, key)
      case Now(answer) =>
        if !answer.Sent? then Release(Ticketed(s, key), s.nextSend, key)
        else DoFinish(Launched(s, key), s.nextSend, answer)
      case Later => Launched(s, key)
  }

  /** The conversation shown when the answer comes is the one the send began in, or the one
      the failure is tagged with. */
  predicate SameConversation(s: State, started: Conv, answer: Answer) {
    s.conv == started || (answer.RejectedIn? && s.conv == answer.conv)
  }

  /** A finished send, before its draft is put anywhere. */
  function Done(s: State, send: nat): State
    requires send in s.pending
  {
    Release(s, send, s.pending[send].key).(pending := s.pending - {send})
  }

  function DoFinish(s: State, send: nat, answer: Answer): State {
    if send !in s.pending then s
    else
      var p := s.pending[send];
      var s1 := Done(s, send);
      if answer.Sent? || !SameConversation(s, p.conv, answer) then s1
      else if Blank(s.box) then
        SetBox(WriteNow(s1, p.draft.text), p.draft.text, p.draft.atts, p.draft.skills)
      else Retain(s1, p.draft)
  }

  predicate HasDraft(box: Draft, incoming: string) {
    (Trim(box.text) != "" && box.text != incoming) || box.atts != [] || box.skills != []
  }

  function DoInsert(s: State, text: string, token: nat): State {
    if text == "" || s.insertToken == Some(token) then s
    else
      var s1 := s.(insertToken := Some(token));
      var s2 := if HasDraft(s.box, text) then SetBox(Retain(s1, s.box), text, [], [])
                else s1.(box := s.box.(text := text));
      WriteNow(s2, text)
  }

  function DoRestore(s: State, id: nat): State {
    if !Has(List(s), id) then s
    else
      var d := Pick(List(s), id).draft;
      var rest := Without(List(s), id);
      var s1 := if Blank(s.box) then Publish(s, rest)
                else Publish(s.(nextEntry := s.nextEntry + 1), rest + [Entry(s.nextEntry, s.box)]);
      SetBox(WriteNow(s1, d.text), d.text, d.atts, d.skills)
  }

  function DoDiscard(s: State, id: nat): State {
    if !Has(List(s), id) then s else Publish(s, Without(List(s), id))
  }

  /** A returned text is accepted and goes into the box. */
  predicate TakesBox(s: State, conv: Conv, token: nat) {
    Accepts(s, conv, token) && Trim(s.box.text) == "" && s.box.atts == []
  }

  predicate Accepts(s: State, conv: Conv, token: nat) {
    !(conv.Some? && s.conv.Some? && conv != s.conv) && s.restoreToken != Some(token)
  }

  /** The effect on `restoredDraft`: a stream failed and its text comes back. */
  function DoTakeBack(s: State, conv: Conv, text: string, token: nat): State {
    if !Accepts(s, conv, token) then s
    else
      var s1 := s.(restoreToken := Some(token));
      if TakesBox(s, conv, token) then
        var s2 := s1.(box := s.box.(text := text));
        if text != "" then WriteNow(s2, text) else s2
      else if s.box.text == text && s.box.atts == [] then s1
      else Retain(s1, Draft(text, [], []))
  }

  function StoredText(s: State, id: nat): string {
    if id in s.stored then s.stored[id] else ""
  }

  /** Leaving a conversation: forget the in-flight keys, store the text, park the list and
      take up the list of the next. */
  function Leave(s: State, conv: Conv): State {
    var s1 := if s.conv.Some? then s.(inflight := map[], epoch := s.epoch + 1) else s;
    WriteNow(s1, s.box.text).(conv := conv, lists := s.lists[conv := ListOf(s, conv)])
  }

  /** Arriving: load the stored text, unless the page had no conversation yet, nothing is
      stored and something has been typed. */
  function LoadText(s: State, previous: Conv): State {
    if s.conv.None? then s
    else if previous.None? && StoredText(s, s.conv.value) == "" && s.box.text != "" then
      s.(stored := s.stored[s.conv.value := s.box.text])
    else s.(box := s.box.(text := StoredText(s, s.conv.value)))
  }

  /** The effects that run when `conversationId` changes. */
  function DoSwitch(s: State, conv: Conv): State {
    if conv == s.conv then s else LoadText(Leave(s, conv), s.conv)
  }

  function Apply(s: State, e: Event): State {
    match e
    case Type(d) => DoType(s, d)
    case Submit(gate, prepared, key, reply) => DoSubmit(s, gate, prepared, key, reply)
    case Finish(send, answer) => DoFinish(s, send, answer)
    case Insert(text, token) => DoInsert(s, text, token)
    case Restore(id) => DoRestore(s, id)
    case Discard(id) => DoDiscard(s, id)
    case TakeBack(conv, text, token) => DoTakeBack(s, conv, text, token)
    case Switch(conv) => DoSwitch(s, conv)
  }

  function Run(s: State, es: seq<Event>): State
    decreases |es|
  {
    if es == [] then s else Run(Apply(s, es[0]), es[1..])
  }

  function Begin(conv: Conv): State {
    State(Draft("", [], []), map[conv := []], map[], conv, 0, map[], map[], 0, None, None, 0)
  }

  // ---------------------------------------------------------------- the invariant

  ghost predicate EntriesOk(nextEntry: nat, es: seq<Entry>) {
    && (forall i | 0 <= i < |es| :: es[i].id < nextEntry && NoRepeats(es[i].draft.skills))
    && (forall i, j | 0 <= i < j < |es| :: es[i].id != es[j].id)
  }

  ghost predicate ListsOk(lists: map<Conv, seq<Entry>>, nextEntry: nat) {
    forall c | c in lists :: EntriesOk(nextEntry, lists[c])
  }

  ghost predicate PendingOk(p: Pending, epoch: nat) {
    p.epoch <= epoch && NoRepeats(p.draft.skills) && Norm(p.draft) == p.draft && !Blank(p.draft)
  }

  ghost predicate KeysPoint(pending: map<nat, Pending>, inflight: map<string, nat>, epoch: nat) {
    forall k | k in inflight ::
      k != "" && inflight[k] in pending && pending[inflight[k]].key == k && pending[inflight[k]].epoch == epoch
  }

  ghost predicate PendingTracked(pending: map<nat, Pending>, inflight: map<string, nat>, epoch: nat) {
    forall i | i in pending && pending[i].key != "" && pending[i].epoch == epoch ::
      pending[i].key in inflight && inflight[pending[i].key] == i
  }

  ghost predicate UniqueKeys(pending: map<nat, Pending>) {
    forall i, j | i in pending && j in pending && i != j && pending[i].key != "" && pending[i].key == pending[j].key ::
      pending[i].epoch != pending[j].epoch
  }

  /** In-flight keys are exactly the keys of the sends pending since the last clearing, and
      no key is pending twice since then. */
  ghost predicate SendsOk(pending: map<nat, Pending>, inflight: map<string, nat>, epoch: nat, nextSend: nat) {
    && KeysPoint(pending, inflight, epoch) && PendingTracked(pending, inflight, epoch) && UniqueKeys(pending)
    && forall i | i in pending :: i < nextSend && PendingOk(pending[i], epoch)
  }

  ghost predicate Inv(s: State) {
    && NoRepeats(s.box.skills)
    && ListsOk(s.lists, s.nextEntry)
    && SendsOk(s.pending, s.inflight, s.epoch, s.nextSend)
  }

  lemma InvBegin(conv: Conv)
    ensures Inv(Begin(conv))
  {
  }

  lemma ListsPutOk(lists: map<Conv, seq<Entry>>, n: nat, c: Conv, es: seq<Entry>, m: nat)
    requires ListsOk(lists, n) && n <= m && EntriesOk(m, es)
    ensures ListsOk(lists[c := es], m)
  {
    forall k | k in lists
      ensures EntriesOk(m, lists[k])
    {
      assert EntriesOk(n, lists[k]);
    }
  }

  lemma ListOk(s: State)
    requires Inv(s)
    ensures EntriesOk(s.nextEntry, List(s))
  {
  }

  lemma AppendOk(n: nat, es: seq<Entry>, d: Draft)
    requires EntriesOk(n, es) && NoRepeats(d.skills)
    ensures EntriesOk(n + 1, es + [Entry(n, d)])
  {
  }

  lemma SendsLaunch(pending: map<nat, Pending>, inflight: map<string, nat>, epoch: nat, n: nat, p: Pending)
    requires SendsOk(pending, inflight, epoch, n) && PendingOk(p, epoch) && p.epoch == epoch
    requires p.key == "" || p.key !in inflight
    ensures SendsOk(pending[n := p], if p.key != "" then inflight[p.key := n] else inflight, epoch, n + 1)
  {
    assert n !in pending;
  }

  lemma SendsLeave(pending: map<nat, Pending>, inflight: map<string, nat>, left: map<string, nat>, epoch: nat, n: nat, send: nat)
    requires SendsOk(pending, inflight, epoch, n) && send in pending
    requires forall k | k in left :: k in inflight && left[k] == inflight[k] && left[k] != send
    requires forall k | k in inflight && inflight[k] != send :: k in left
    ensures SendsOk(pending - {send}, left, epoch, n)
  {
    var rest := pending - {send};
    assert KeysPoint(rest, left, epoch);
    assert PendingTracked(rest, left, epoch);
    assert UniqueKeys(rest);
  }

  lemma SendsDone(pending: map<nat, Pending>, inflight: map<string, nat>, epoch: nat, n: nat, send: nat)
    requires SendsOk(pending, inflight, epoch, n) && send in pending
    ensures var key := pending[send].key;
            SendsOk(pending - {send},
                    if key != "" && key in inflight && inflight[key] == send then inflight - {key} else inflight, epoch, n)
  {
    var key := pending[send].key;
    SendsLeave(pending, inflight, if key != "" && key in inflight && inflight[key] == send then inflight - {key} else inflight,
               epoch, n, send);
  }

  lemma SendsClear(pending: map<nat, Pending>, inflight: map<string, nat>, epoch: nat, n: nat)
    requires SendsOk(pending, inflight, epoch, n)
    ensures SendsOk(pending, map[], epoch + 1, n)
  {
    forall i | i in pending
      ensures PendingOk(pending[i], epoch + 1)
    {
      assert PendingOk(pending[i], epoch);
    }
  }

  lemma {:induction false} WithoutIs(es: seq<Entry>, id: nat)
    ensures forall e :: e in Without(es, id) <==> e in es && e.id != id
  {
    if es != [] { WithoutIs(es[1..], id); }
  }

  lemma PrependOk(n: nat, e: Entry, es: seq<Entry>)
    requires EntriesOk(n, es) && e.id < n && NoRepeats(e.draft.skills)
    requires forall i | 0 <= i < |es| :: es[i].id != e.id
    ensures EntriesOk(n, [e] + es)
  {
  }

  lemma TailOk(n: nat, es: seq<Entry>)
    requires EntriesOk(n, es) && es != []
    ensures EntriesOk(n, es[1..])
  {
  }

  lemma {:induction false} WithoutOk(n: nat, es: seq<Entry>, id: nat)
    requires EntriesOk(n, es)
    ensures EntriesOk(n, Without(es, id))
  {
    if es != [] {
      TailOk(n, es);
      WithoutOk(n, es[1..], id);
      WithoutIs(es[1..], id);
      var r := Without(es[1..], id);
      forall i | 0 <= i < |r|
        ensures r[i].id != es[0].id
      {
        assert r[i] in es[1..];
      }
      if es[0].id != id { PrependOk(n, es[0], r); }
    }
  }

  lemma SnapshotOk(s: State)
    requires Inv(s) && !(Trim(s.box.text) == "" && s.box.atts == [])
    ensures PendingOk(Pending(Snapshot(s), "", s.conv, s.epoch), s.epoch)
  {
    TrimTwice(s.box.text);
  }

  lemma RetainOk(s: State, d: Draft)
    requires Inv(s) && NoRepeats(d.skills)
    ensures ListsOk(Retain(s, d).lists, Retain(s, d).nextEntry)
  {
    ListOk(s);
    AppendOk(s.nextEntry, List(s), d);
    ListsPutOk(s.lists, s.nextEntry, s.conv, List(s) + [Entry(s.nextEntry, d)], s.nextEntry + 1);
  }

  lemma InvLaunched(s: State, key: string)
    requires Inv(s) && !Held(s, key) && !(Trim(s.box.text) == "" && s.box.atts == [])
    ensures Inv(Launched(s, key))
  {
    SnapshotOk(s);
    var p := Pending(Snapshot(s), key, s.conv, s.epoch);
    assert PendingOk(p, s.epoch);
    SendsLaunch(s.pending, s.inflight, s.epoch, s.nextSend, p);
    DistinctHasNoRepeats([], []);
  }

  lemma InvDone(s: State, send: nat)
    requires Inv(s) && send in s.pending
    ensures Inv(Done(s, send)) && NoRepeats(s.pending[send].draft.skills)
  {
    SendsDone(s.pending, s.inflight, s.epoch, s.nextSend, send);
    assert PendingOk(s.pending[send], s.epoch);
  }

  lemma InvFinish(s: State, send: nat, answer: Answer)
    requires Inv(s)
    ensures Inv(DoFinish(s, send, answer))
  {
    if send in s.pending {
      var d := s.pending[send].draft;
      InvDone(s, send);
      DistinctHasNoRepeats(d.skills, []);
      RetainOk(Done(s, send), d);
    }
  }

  /** A send that threw or was rejected at once leaves only the ticket counter changed. */
  lemma TicketReleased(s: State, key: string)
    requires !Held(s, key)
    ensures Release(Ticketed(s, key), s.nextSend, key) == s.(nextSend := s.nextSend + 1)
  {
    if key != "" { assert Ticketed(s, key).inflight - {key} == s.inflight; }
  }

  lemma InvSubmit(s: State, gate: bool, prepared: bool, key: string, reply: Reply)
    requires Inv(s)
    ensures Inv(DoSubmit(s, gate, prepared, key, reply))
  {
    if MaySubmit(s, gate, prepared) && !Held(s, key) {
      if reply.Threw? || (reply.Now? && !reply.answer.Sent?) {
        TicketReleased(s, key);
      } else {
        InvLaunched(s, key);
        if reply.Now? { InvFinish(Launched(s, key), s.nextSend, reply.answer); }
      }
    }
  }

  lemma InvInsert(s: State, text: string, token: nat)
    requires Inv(s)
    ensures Inv(DoInsert(s, text, token))
  {
    RetainOk(s.(insertToken := Some(token)), s.box);
    DistinctHasNoRepeats([], []);
  }

  lemma InvRestore(s: State, id: nat)
    requires Inv(s)
    ensures Inv(DoRestore(s, id))
  {
    if Has(List(s), id) {
      var rest := Without(List(s), id);
      ListOk(s);
      WithoutOk(s.nextEntry, List(s), id);
      AppendOk(s.nextEntry, rest, s.box);
      ListsPutOk(s.lists, s.nextEntry, s.conv, rest, s.nextEntry);
      ListsPutOk(s.lists, s.nextEntry, s.conv, rest + [Entry(s.nextEntry, s.box)], s.nextEntry + 1);
      DistinctHasNoRepeats(Pick(List(s), id).draft.skills, []);
    }
  }

  lemma InvDiscard(s: State, id: nat)
    requires Inv(s)
    ensures Inv(DoDiscard(s, id))
  {
    ListOk(s);
    WithoutOk(s.nextEntry, List(s), id);
    ListsPutOk(s.lists, s.nextEntry, s.conv, Without(List(s), id), s.nextEntry);
  }

  lemma InvTakeBack(s: State, conv: Conv, text: string, token: nat)
    requires Inv(s)
    ensures Inv(DoTakeBack(s, conv, text, token))
  {
    RetainOk(s, Draft(text, [], []));
    TakeBackPlaces(s, conv, text, token);
    TakeBackKeepsSends(s, conv, text, token);
  }

  lemma SwitchKeeps(s: State, conv: Conv)
    ensures var z := DoSwitch(s, conv);
            && z.lists == (if conv == s.conv then s.lists else s.lists[conv := ListOf(s, conv)])
            && z.nextEntry == s.nextEntry && z.pending == s.pending && z.nextSend == s.nextSend
            && z.box.skills == s.box.skills && z.box.atts == s.box.atts
            && (if conv != s.conv && s.conv.Some? then z.inflight == map[] && z.epoch == s.epoch + 1
                else z.inflight == s.inflight && z.epoch == s.epoch)
  {
  }

  lemma InvSwitch(s: State, conv: Conv)
    requires Inv(s)
    ensures Inv(DoSwitch(s, conv))
  {
    SwitchKeeps(s, conv);
    ListsPutOk(s.lists, s.nextEntry, conv, ListOf(s, conv), s.nextEntry);
    SendsClear(s.pending, s.inflight, s.epoch, s.nextSend);
  }

  lemma InvApply(s: State, e: Event)
    requires Inv(s)
    ensures Inv(Apply(s, e))
  {
    match e
    case Type(d) => DistinctHasNoRepeats(d.skills, []);
    case Submit(gate, prepared, key, reply) => InvSubmit(s, gate, prepared, key, reply);
    case Finish(send, answer) => InvFinish(s, send, answer);
    case Insert(text, token) => InvInsert(s, text, token);
    case Restore(id) => InvRestore(s, id);
    case Discard(id) => InvDiscard(s, id);
    case TakeBack(conv, text, token) => InvTakeBack(s, conv, text, token);
    case Switch(conv) => InvSwitch(s, conv);
  }

  lemma {:induction false} InvRun(s: State, es: seq<Event>)
    requires Inv(s)
    ensures Inv(Run(s, es))
    decreases |es|
  {
    if es != [] {
      InvApply(s, es[0]);
      InvRun(Apply(s, es[0]), es[1..]);
    }
  }

  // ---------------------------------------------------------------- the ledger

  /** What is counted: a whole draft up to surrounding whitespace, or only its text. */
  datatype Content = Whole(draft: Draft) | Words(text: string)

  /** How often `d` is held in one place.  A blank draft or text is not held. */
  ghost function One(held: Draft, d: Content): nat {
    match d
    case Whole(draft) => if !Blank(held) && Norm(held) == draft then 1 else 0
    case Words(text) => if text != "" && Trim(held.text) == text then 1 else 0
  }

  ghost function CountEntries(es: seq<Entry>, d: Content): nat {
    if es == [] then 0 else One(es[0].draft, d) + CountEntries(es[1..], d)
  }

  ghost function CountLists(lists: map<Conv, seq<Entry>>, d: Content): nat
    decreases |lists|
  {
    if lists == map[] then 0 else
    var c :| c in lists;
    CountEntries(lists[c], d) + CountLists(lists - {c}, d)
  }

  ghost function CountPending(pending: map<nat, Pending>, d: Content): nat
    decreases |pending|
  {
    if pending == map[] then 0 else
    var i :| i in pending;
    One(pending[i].draft, d) + CountPending(pending - {i}, d)
  }

  /** How often the composer holds `d`: in the box, in the recoverable list of any
      conversation, or in a pending send. */
  ghost function Count(s: State, d: Content): nat {
    One(s.box, d) + CountLists(s.lists, d) + CountPending(s.pending, d)
  }

  ghost function CountTexts(texts: map<nat, string>, d: Content): nat
    decreases |texts|
  {
    if texts == map[] then 0 else
    var c :| c in texts;
    One(Draft(texts[c], [], []), d) + CountTexts(texts - {c}, d)
  }

  /** The stored texts of the conversations not shown.  The one of the conversation shown is
      a copy of the box. */
  function Parked(s: State): map<nat, string> {
    if s.conv.Some? then s.stored - {s.conv.value} else s.stored
  }

  /** How often the page keeps `d`: a text also where it is parked in storage, a whole draft
      only where its attachments and skills are. */
  ghost function Kept(s: State, d: Content): nat {
    Count(s, d) + if d.Words? then CountTexts(Parked(s), d) else 0
  }

  lemma {:induction false} ListsTake(lists: map<Conv, seq<Entry>>, c: Conv, d: Content)
    requires c in lists
    ensures CountLists(lists, d) == CountEntries(lists[c], d) + CountLists(lists - {c}, d)
    decreases |lists|
  {
    var j :| j in lists && CountLists(lists, d) == CountEntries(lists[j], d) + CountLists(lists - {j}, d);
    if j != c {
      ListsTake(lists - {j}, c, d);
      ListsTake(lists - {c}, j, d);
      assert lists - {j} - {c} == lists - {c} - {j};
    }
  }

  lemma {:induction false} PendingTake(pending: map<nat, Pending>, i: nat, d: Content)
    requires i in pending
    ensures CountPending(pending, d) == One(pending[i].draft, d) + CountPending(pending - {i}, d)
    decreases |pending|
  {
    var j :| j in pending && CountPending(pending, d) == One(pending[j].draft, d) + CountPending(pending - {j}, d);
    if j != i {
      PendingTake(pending - {j}, i, d);
      PendingTake(pending - {i}, j, d);
      assert pending - {j} - {i} == pending - {i} - {j};
    }
  }

  lemma {:induction false} TextsTake(texts: map<nat, string>, i: nat, d: Content)
    requires i in texts
    ensures CountTexts(texts, d) == One(Draft(texts[i], [], []), d) + CountTexts(texts - {i}, d)
    decreases |texts|
  {
    var j :| j in texts && CountTexts(texts, d) == One(Draft(texts[j], [], []), d) + CountTexts(texts - {j}, d);
    if j != i {
      TextsTake(texts - {j}, i, d);
      TextsTake(texts - {i}, j, d);
      assert texts - {j} - {i} == texts - {i} - {j};
    }
  }

  /** Where no text is stored, an empty one counts the same. */
  lemma TextsSplit(texts: map<nat, string>, i: nat, d: Content)
    requires d.Words?
    ensures CountTexts(texts, d) ==
              One(Draft(if i in texts then texts[i] else "", [], []), d) + CountTexts(texts - {i}, d)
  {
    if i in texts { TextsTake(texts, i, d); } else { assert texts - {i} == texts; }
  }

  lemma ListsPut(lists: map<Conv, seq<Entry>>, c: Conv, es: seq<Entry>, d: Content)
    ensures CountLists(lists[c := es], d) + (if c in lists then CountEntries(lists[c], d) else 0) ==
            CountLists(lists, d) + CountEntries(es, d)
  {
    ListsTake(lists[c := es], c, d);
    assert lists[c := es] - {c} == lists - {c};
    if c in lists {
      ListsTake(lists, c, d);
    } else {
      assert lists - {c} == lists;
    }
  }

  lemma PendingPut(pending: map<nat, Pending>, i: nat, p: Pending, d: Content)
    requires i !in pending
    ensures CountPending(pending[i := p], d) == CountPending(pending, d) + One(p.draft, d)
  {
    PendingTake(pending[i := p], i, d);
    assert pending[i := p] - {i} == pending;
  }

  lemma {:induction false} EntriesAppend(es: seq<Entry>, e: Entry, d: Content)
    ensures CountEntries(es + [e], d) == CountEntries(es, d) + One(e.draft, d)
  {
    if es == [] {
      assert es + [e] == [e];
    } else {
      assert (es + [e])[1..] == es[1..] + [e];
      EntriesAppend(es[1..], e, d);
    }
  }

  lemma {:induction false} WithoutNone(es: seq<Entry>, id: nat)
    requires forall i | 0 <= i < |es| :: es[i].id != id
    ensures Without(es, id) == es
  {
    if es != [] { WithoutNone(es[1..], id); }
  }

  lemma {:induction false} EntriesPick(n: nat, es: seq<Entry>, id: nat, d: Content)
    requires EntriesOk(n, es) && Has(es, id)
    ensures CountEntries(es, d) == One(Pick(es, id).draft, d) + CountEntries(Without(es, id), d)
  {
    if es[0].id == id {
      WithoutNone(es[1..], id);
      assert Without(es, id) == es[1..];
    } else {
      var i :| 0 <= i < |es| && es[i].id == id;
      assert es[1..][i - 1].id == id;
      EntriesPick(n, es[1..], id, d);
      assert Without(es, id) == [es[0]] + Without(es[1..], id);
    }
  }

  lemma PublishCount(s: State, es: seq<Entry>, d: Content)
    ensures CountLists(Publish(s, es).lists, d) + CountEntries(List(s), d) == CountLists(s.lists, d) + CountEntries(es, d)
  {
    ListsPut(s.lists, s.conv, es, d);
  }

  lemma RetainCount(s: State, kept: Draft, d: Content)
    ensures CountLists(Retain(s, kept).lists, d) == CountLists(s.lists, d) + One(kept, d)
  {
    ListsPut(s.lists, s.conv, List(s) + [Entry(s.nextEntry, kept)], d);
    EntriesAppend(List(s), Entry(s.nextEntry, kept), d);
  }

  lemma OneNorm(held: Draft, d: Content)
    ensures One(Norm(held), d) == One(held, d)
  {
    TrimTwice(held.text);
  }

  lemma DistinctBox(skills: seq<nat>)
    requires NoRepeats(skills)
    ensures Distinct(skills, []) == skills
  {
    assert [] + skills == skills;
    DistinctOfDistinct(skills, []);
  }

  /** What an event takes out for good: a draft sent, discarded, or answered after its
      conversation had been left; and the box when the user retypes it, when a returned
      text is put beside bare skills.  A change of conversation takes the box apart: its text
      is parked, unless there was no conversation and the one opened has a text of its own. */
  ghost function Gone(s: State, e: Event, d: Content): nat {
    match e
    case Type(_) => One(s.box, d)
    case Submit(gate, prepared, key, reply) =>
      if MaySubmit(s, gate, prepared) && !Held(s, key) && reply == Now(Sent) then One(s.box, d) else 0
    case Finish(send, answer) =>
      if send in s.pending && (answer.Sent? || !SameConversation(s, s.pending[send].conv, answer))
      then One(s.pending[send].draft, d) else 0
    case Insert(_, _) => 0
    case Restore(_) => 0
    case Discard(id) => if Has(List(s), id) then One(Pick(List(s), id).draft, d) else 0
    case TakeBack(conv, _, token) => if TakesBox(s, conv, token) then One(s.box, d) else 0
    case Switch(conv) => if d.Whole? || Overwrites(s, conv) then One(s.box, d) else 0
  }

  /** The stored text of `conv` replaces a text typed before there was a conversation. */
  predicate Overwrites(s: State, conv: Conv) {
    s.conv.None? && conv.Some? && StoredText(s, conv.value) != ""
  }

  /** What an event brings in: the new contents of the box, or a suggestion or returned
      text that is not already there.  Leaving a conversation for none parks the text and
      keeps it in the box as well. */
  ghost function Came(s: State, e: Event, d: Content): nat {
    match e
    case Type(_) => One(Apply(s, e).box, d)
    case Submit(_, _, _, _) => 0
    case Finish(_, _) => 0
    case Insert(text, token) =>
      if text == "" || s.insertToken == Some(token) || s.box == Draft(text, [], []) then 0 else One(Draft(text, [], []), d)
    case Restore(_) => 0
    case Discard(_) => 0
    case TakeBack(conv, text, token) =>
      if TakesBox(s, conv, token) then One(s.box.(text := text), d)
      else if Accepts(s, conv, token) && !(s.box.text == text && s.box.atts == []) then One(Draft(text, [], []), d)
      else 0
    case Switch(conv) =>
      if d.Whole? then One(Apply(s, e).box, d) else if s.conv.Some? && conv.None? then One(s.box, d) else 0
  }

  ghost predicate Balanced(s: State, e: Event, d: Content) {
    Kept(Apply(s, e), d) + Gone(s, e, d) == Kept(s, d) + Came(s, e, d)
  }

  lemma LaunchCount(s: State, key: string, d: Content)
    requires Inv(s)
    ensures Count(Launched(s, key), d) == Count(s, d)
  {
    var p := Pending(Snapshot(s), key, s.conv, s.epoch);
    assert Launched(s, key).pending == s.pending[s.nextSend := p];
    PendingPut(s.pending, s.nextSend, p, d);
    OneNorm(s.box, d);
    assert Snapshot(s) == Norm(s.box);
    assert Launched(s, key).box == Draft("", [], []);
  }

  /** The three places a finished send's draft can go. */
  lemma FinishPlaces(s: State, send: nat, answer: Answer)
    requires Inv(s) && send in s.pending
    ensures var p := s.pending[send];
            var z := DoFinish(s, send, answer);
            && z.pending == s.pending - {send} && z.epoch == s.epoch
            && (if answer.Sent? || !SameConversation(s, p.conv, answer) then z.box == s.box && z.lists == s.lists
                else if Blank(s.box) then z.box == p.draft && z.lists == s.lists
                else z.box == s.box && z.lists == Retain(s, p.draft).lists)
  {
    InvDone(s, send);
    DistinctBox(s.pending[send].draft.skills);
  }

  lemma FinishBalanced(s: State, send: nat, answer: Answer, d: Content)
    requires Inv(s)
    ensures Count(DoFinish(s, send, answer), d) + Gone(s, Finish(send, answer), d) == Count(s, d) + Came(s, Finish(send, answer), d)
  {
    if send in s.pending {
      FinishPlaces(s, send, answer);
      PendingTake(s.pending, send, d);
      RetainCount(s, s.pending[send].draft, d);
    }
  }

  lemma SentBalanced(s: State, key: string, d: Content)
    requires Inv(s) && !Held(s, key) && !(Trim(s.box.text) == "" && s.box.atts == [])
    ensures Count(DoFinish(Launched(s, key), s.nextSend, Sent), d) + One(s.box, d) == Count(s, d)
  {
    LaunchCount(s, key, d);
    InvLaunched(s, key);
    FinishBalanced(Launched(s, key), s.nextSend, Sent, d);
    OneNorm(s.box, d);
    assert Launched(s, key).pending[s.nextSend].draft == Norm(s.box);
  }

  lemma SubmitBalanced(s: State, gate: bool, prepared: bool, key: string, reply: Reply, d: Content)
    requires Inv(s)
    ensures Count(DoSubmit(s, gate, prepared, key, reply), d) + Gone(s, Submit(gate, prepared, key, reply), d) == Count(s, d) + Came(s, Submit(gate, prepared, key, reply), d)
  {
    if MaySubmit(s, gate, prepared) && !Held(s, key) {
      match reply
      case Later => LaunchCount(s, key, d);
      case Now(Sent) => SentBalanced(s, key, d);
      case _ => TicketReleased(s, key);
    }
  }

  lemma InsertPlaces(s: State, text: string, token: nat)
    requires text != "" && s.insertToken != Some(token)
    ensures var z := DoInsert(s, text, token);
            && z.pending == s.pending && z.box == Draft(text, [], [])
            && z.lists == if HasDraft(s.box, text) then Retain(s, s.box).lists else s.lists
  {
  }

  lemma InsertBalanced(s: State, text: string, token: nat, d: Content)
    requires Inv(s)
    ensures Count(DoInsert(s, text, token), d) + Gone(s, Insert(text, token), d) == Count(s, d) + Came(s, Insert(text, token), d)
  {
    if text != "" && s.insertToken != Some(token) {
      InsertPlaces(s, text, token);
      RetainCount(s, s.box, d);
      assert !HasDraft(s.box, text) ==> Blank(s.box) || s.box == Draft(text, [], []);
    }
  }

  lemma RestorePlaces(s: State, id: nat)
    requires Inv(s) && Has(List(s), id)
    ensures var z := DoRestore(s, id);
            var rest := Without(List(s), id);
            && z.pending == s.pending && z.box == Pick(List(s), id).draft
            && z.lists == s.lists[s.conv := if Blank(s.box) then rest else rest + [Entry(s.nextEntry, s.box)]]
  {
    ListOk(s);
    DistinctBox(Pick(List(s), id).draft.skills);
  }

  lemma RestoreBalanced(s: State, id: nat, d: Content)
    requires Inv(s)
    ensures Count(DoRestore(s, id), d) + Gone(s, Restore(id), d) == Count(s, d) + Came(s, Restore(id), d)
  {
    if Has(List(s), id) {
      var rest := Without(List(s), id);
      ListOk(s);
      RestorePlaces(s, id);
      EntriesPick(s.nextEntry, List(s), id, d);
      EntriesAppend(rest, Entry(s.nextEntry, s.box), d);
      ListsPut(s.lists, s.conv, DoRestore(s, id).lists[s.conv], d);
    }
  }

  lemma DiscardBalanced(s: State, id: nat, d: Content)
    requires Inv(s)
    ensures Count(DoDiscard(s, id), d) + Gone(s, Discard(id), d) == Count(s, d) + Came(s, Discard(id), d)
  {
    if Has(List(s), id) {
      ListOk(s);
      EntriesPick(s.nextEntry, List(s), id, d);
      PublishCount(s, Without(List(s), id), d);
    }
  }

  lemma TakeBackKeepsSends(s: State, conv: Conv, text: string, token: nat)
    ensures var z := DoTakeBack(s, conv, text, token);
            z.pending == s.pending && z.inflight == s.inflight && z.epoch == s.epoch && z.nextSend == s.nextSend
  {
  }

  lemma TakeBackPlaces(s: State, conv: Conv, text: string, token: nat)
    ensures var z := DoTakeBack(s, conv, text, token);
            && (if TakesBox(s, conv, token) then z.box == s.box.(text := text) && z.lists == s.lists && z.nextEntry == s.nextEntry
                else if Accepts(s, conv, token) && !(s.box.text == text && s.box.atts == [])
                then z.box == s.box && z.lists == Retain(s, Draft(text, [], [])).lists && z.nextEntry == s.nextEntry + 1
                else z.box == s.box && z.lists == s.lists && z.nextEntry == s.nextEntry)
  {
  }

  lemma TakeBackBalanced(s: State, conv: Conv, text: string, token: nat, d: Content)
    requires Inv(s)
    ensures Count(DoTakeBack(s, conv, text, token), d) + Gone(s, TakeBack(conv, text, token), d) ==
            Count(s, d) + Came(s, TakeBack(conv, text, token), d)
  {
    TakeBackPlaces(s, conv, text, token);
    TakeBackKeepsSends(s, conv, text, token);
    RetainCount(s, Draft(text, [], []), d);
  }

  /** What happens to the texts when the conversation changes. */
  lemma SwitchTexts(s: State, conv: Conv)
    requires conv != s.conv
    ensures var z := DoSwitch(s, conv);
            var left := if s.conv.None? then s.stored
                        else if s.box.text != "" then s.stored[s.conv.value := s.box.text]
                        else s.stored - {s.conv.value};
            && z.conv == conv
            && (conv.None? ==> z.box == s.box && z.stored == left)
            && (conv.Some? ==>
                  && z.stored - {conv.value} == left - {conv.value}
                  && z.box.text == if s.conv.None? && StoredText(s, conv.value) == "" then s.box.text
                                   else StoredText(s, conv.value))
  {
  }

  lemma OpenKeepsTexts(s: State, b: nat, d: Content)
    requires s.conv.None? && d.Words?
    ensures var z := DoSwitch(s, Some(b));
            One(z.box, d) + CountTexts(Parked(z), d) + (if Overwrites(s, Some(b)) then One(s.box, d) else 0) ==
            One(s.box, d) + CountTexts(Parked(s), d)
  {
    SwitchTexts(s, Some(b));
    TextsSplit(s.stored, b, d);
  }

  lemma CloseKeepsTexts(s: State, a: nat, d: Content)
    requires s.conv == Some(a) && d.Words?
    ensures var z := DoSwitch(s, None);
            z.box == s.box && CountTexts(Parked(z), d) == One(s.box, d) + CountTexts(Parked(s), d)
  {
    SwitchTexts(s, None);
    var z := DoSwitch(s, None);
    TextsSplit(z.stored, a, d);
    assert z.stored - {a} == s.stored - {a};
  }

  /** Storing a text under `a` and taking up the one stored under `b`. */
  lemma Exchange(before: map<nat, string>, after: map<nat, string>, a: nat, b: nat, was: string, d: Content)
    requires a != b && d.Words?
    requires after - {b} == (if was != "" then before[a := was] else before - {a}) - {b}
    ensures One(Draft(if b in before then before[b] else "", [], []), d) + CountTexts(after - {b}, d) ==
            One(Draft(was, [], []), d) + CountTexts(before - {a}, d)
  {
    TextsSplit(before - {a}, b, d);
    TextsSplit(after - {b}, a, d);
    assert before - {a} - {b} == after - {b} - {a};
  }

  lemma MoveKeepsTexts(s: State, a: nat, b: nat, d: Content)
    requires s.conv == Some(a) && a != b && d.Words?
    ensures var z := DoSwitch(s, Some(b));
            One(z.box, d) + CountTexts(Parked(z), d) == One(s.box, d) + CountTexts(Parked(s), d)
  {
    SwitchTexts(s, Some(b));
    Exchange(s.stored, DoSwitch(s, Some(b)).stored, a, b, s.box.text, d);
  }

  lemma SwitchBalanced(s: State, conv: Conv, d: Content)
    ensures Balanced(s, Switch(conv), d)
  {
    SwitchKeeps(s, conv);
    ListsPut(s.lists, conv, ListOf(s, conv), d);
    if d.Words? && conv != s.conv {
      match (s.conv, conv) {
        case (None, Some(b)) => OpenKeepsTexts(s, b, d);
        case (Some(a), None) => CloseKeepsTexts(s, a, d);
        case (Some(a), Some(b)) => MoveKeepsTexts(s, a, b, d);
      }
    }
  }

  lemma WriteKeepsParked(s: State, text: string)
    ensures Parked(WriteNow(s, text)) == Parked(s)
  {
  }

  lemma LaunchKeepsParked(s: State, key: string)
    ensures Parked(Launched(s, key)) == Parked(s)
  {
    var s1 := Ticketed(s, key).(pending := s.pending[s.nextSend := Pending(Snapshot(s), key, s.conv, s.epoch)]);
    WriteKeepsParked(SetBox(s1, "", [], []), "");
  }

  lemma FinishKeepsParked(s: State, send: nat, answer: Answer)
    ensures Parked(DoFinish(s, send, answer)) == Parked(s)
  {
    if send in s.pending { WriteKeepsParked(Done(s, send), s.pending[send].draft.text); }
  }

  lemma SubmitKeepsParked(s: State, gate: bool, prepared: bool, key: string, reply: Reply)
    ensures Parked(DoSubmit(s, gate, prepared, key, reply)) == Parked(s)
  {
    LaunchKeepsParked(s, key);
    if reply.Now? { FinishKeepsParked(Launched(s, key), s.nextSend, reply.answer); }
  }

  lemma InsertKeepsParked(s: State, text: string, token: nat)
    ensures Parked(DoInsert(s, text, token)) == Parked(s)
  {
    var s1 := s.(insertToken := Some(token));
    WriteKeepsParked(SetBox(Retain(s1, s.box), text, [], []), text);
    WriteKeepsParked(s1.(box := s.box.(text := text)), text);
  }

  lemma RestoreKeepsParked(s: State, id: nat)
    ensures Parked(DoRestore(s, id)) == Parked(s)
  {
    if Has(List(s), id) {
      var d := Pick(List(s), id).draft;
      var rest := Without(List(s), id);
      WriteKeepsParked(if Blank(s.box) then Publish(s, rest)
                       else Publish(s.(nextEntry := s.nextEntry + 1), rest + [Entry(s.nextEntry, s.box)]), d.text);
    }
  }

  lemma TakeBackKeepsParked(s: State, conv: Conv, text: string, token: nat)
    ensures Parked(DoTakeBack(s, conv, text, token)) == Parked(s)
  {
    WriteKeepsParked(s.(restoreToken := Some(token), box := s.box.(text := text)), text);
  }

  /** No other event touches a parked text. */
  lemma ParkedStays(s: State, e: Event)
    requires !e.Switch?
    ensures Parked(Apply(s, e)) == Parked(s)
  {
    match e
    case Type(_) =>
    case Submit(gate, prepared, key, reply) => SubmitKeepsParked(s, gate, prepared, key, reply);
    case Finish(send, answer) => FinishKeepsParked(s, send, answer);
    case Insert(text, token) => InsertKeepsParked(s, text, token);
    case Restore(id) => RestoreKeepsParked(s, id);
    case Discard(_) =>
    case TakeBack(conv, text, token) => TakeBackKeepsParked(s, conv, text, token);
  }

  /** One event conserves every draft and every text exactly: nothing vanishes and nothing is
      doubled but what `Gone` and `Came` name. */
  lemma StepBalanced(s: State, e: Event, d: Content)
    requires Inv(s)
    ensures Balanced(s, e, d)
  {
    if !e.Switch? { ParkedStays(s, e); }
    match e
    case Type(_) =>
    case Submit(gate, prepared, key, reply) => SubmitBalanced(s, gate, prepared, key, reply, d);
    case Finish(send, answer) => FinishBalanced(s, send, answer, d);
    case Insert(text, token) => InsertBalanced(s, text, token, d);
    case Restore(id) => RestoreBalanced(s, id, d);
    case Discard(id) => DiscardBalanced(s, id, d);
    case TakeBack(conv, text, token) => TakeBackBalanced(s, conv, text, token, d);
    case Switch(conv) => SwitchBalanced(s, conv, d);
  }

  ghost function GoneIn(s: State, es: seq<Event>, d: Content): nat
    decreases |es|
  {
    if es == [] then 0 else Gone(s, es[0], d) + GoneIn(Apply(s, es[0]), es[1..], d)
  }

  ghost function CameIn(s: State, es: seq<Event>, d: Content): nat
    decreases |es|
  {
    if es == [] then 0 else Came(s, es[0], d) + CameIn(Apply(s, es[0]), es[1..], d)
  }

  /** Conservation over whole runs, for every draft and for every text. */
  lemma {:induction false} DraftsConserved(s: State, es: seq<Event>, d: Content)
    requires Inv(s)
    ensures Kept(Run(s, es), d) + GoneIn(s, es, d) == Kept(s, d) + CameIn(s, es, d)
    decreases |es|
  {
    if es != [] {
      StepBalanced(s, es[0], d);
      InvApply(s, es[0]);
      DraftsConserved(Apply(s, es[0]), es[1..], d);
    }
  }

  /** A draft or text that is no longer kept after a run was taken out by a particular event. */
  lemma {:induction false} DraftFate(s: State, es: seq<Event>, d: Content) returns (k: nat)
    requires Inv(s) && Kept(s, d) > 0 && Kept(Run(s, es), d) == 0
    ensures k < |es| && Gone(Run(s, es[..k]), es[k], d) > 0
    decreases |es|
  {
    if Gone(s, es[0], d) > 0 {
      k := 0;
    } else {
      StepBalanced(s, es[0], d);
      InvApply(s, es[0]);
      var j := DraftFate(Apply(s, es[0]), es[1..], d);
      k := j + 1;
      assert es[..k][1..] == es[1..][..j];
    }
  }

  /** What a text handed back means for the user: every recoverable draft and pending send
      stays as it was, no text is lost, the text itself is kept if it is accepted, and
      handing it back again changes nothing. */
  lemma TakeBackLosesNothing(s: State, conv: Conv, text: string, token: nat)
    requires Inv(s)
    ensures var z := DoTakeBack(s, conv, text, token);
            && z.pending == s.pending && (forall c :: ListOf(s, c) <= ListOf(z, c))
            && (forall t :: Kept(z, Words(t)) >= Kept(s, Words(t)))
            && (Accepts(s, conv, token) && Trim(text) != "" ==> Kept(z, Words(Trim(text))) > 0)
            && DoTakeBack(z, conv, text, token) == z
  {
    var z := DoTakeBack(s, conv, text, token);
    TakeBackPlaces(s, conv, text, token);
    TakeBackKeepsSends(s, conv, text, token);
    forall t
      ensures Kept(z, Words(t)) >= Kept(s, Words(t))
    {
      StepBalanced(s, TakeBack(conv, text, token), Words(t));
    }
    RetainCount(s, Draft(text, [], []), Words(Trim(text)));
  }

  // ---------------------------------------------------------------- a failed send

  /** A failed send gives its draft back, whole, if the conversation it began in is shown, or
      the one the failure names: into the box if that is blank, to the end of its list if not.
      In any other conversation the draft is dropped. */
  lemma FailedSendReturns(s: State, send: nat, answer: Answer)
    requires Inv(s) && send in s.pending && !answer.Sent?
    ensures var d := s.pending[send].draft;
            var z := Apply(s, Finish(send, answer));
            if s.conv == s.pending[send].conv || answer == RejectedIn(s.conv) then
              && (if Trim(s.box.text) == "" && s.box.atts == [] && s.box.skills == []
                  then z.box == d && z.lists == s.lists
                  else z.box == s.box && ListOf(z, s.conv) == ListOf(s, s.conv) + [Entry(s.nextEntry, d)])
              && Kept(z, Whole(d)) == Kept(s, Whole(d)) && Kept(z, Whole(d)) > 0
            else
              z.box == s.box && z.lists == s.lists && Kept(z, Whole(d)) + 1 == Kept(s, Whole(d))
  {
    var d := s.pending[send].draft;
    assert PendingOk(s.pending[send], s.epoch);
    FinishPlaces(s, send, answer);
    FinishBalanced(s, send, answer, Whole(d));
    PendingTake(s.pending, send, Whole(d));
  }

  lemma FinishKeepsConv(s: State, send: nat, answer: Answer)
    ensures DoFinish(s, send, answer).conv == s.conv
  {
  }

  lemma SubmitKeepsConv(s: State, gate: bool, prepared: bool, key: string, reply: Reply)
    requires Inv(s)
    ensures DoSubmit(s, gate, prepared, key, reply).conv == s.conv
  {
    assert Launched(s, key).conv == s.conv;
    if reply.Now? { FinishKeepsConv(Launched(s, key), s.nextSend, reply.answer); }
  }

  lemma RestoreKeepsConv(s: State, id: nat)
    ensures DoRestore(s, id).conv == s.conv && DoDiscard(s, id).conv == s.conv
  {
  }

  lemma InsertKeepsConv(s: State, text: string, token: nat)
    ensures DoInsert(s, text, token).conv == s.conv
  {
  }

  lemma TakeBackKeepsConv(s: State, conv: Conv, text: string, token: nat)
    ensures DoTakeBack(s, conv, text, token).conv == s.conv
  {
  }

  lemma ConvStays(s: State, e: Event)
    requires Inv(s) && !e.Switch?
    ensures Apply(s, e).conv == s.conv
  {
    match e
    case Type(_) =>
    case Submit(gate, prepared, key, reply) => SubmitKeepsConv(s, gate, prepared, key, reply);
    case Finish(send, answer) => FinishKeepsConv(s, send, answer);
    case Insert(text, token) => InsertKeepsConv(s, text, token);
    case Restore(id) => RestoreKeepsConv(s, id);
    case Discard(id) => RestoreKeepsConv(s, id);
    case TakeBack(conv, text, token) => TakeBackKeepsConv(s, conv, text, token);
  }

  lemma LaunchKeepsPending(s: State, key: string, send: nat)
    requires send in s.pending && send < s.nextSend
    ensures send in Launched(s, key).pending && Launched(s, key).pending[send] == s.pending[send]
  {
  }

  lemma FinishKeepsPending(s: State, other: nat, answer: Answer, send: nat)
    requires send in s.pending && other != send
    ensures var z := DoFinish(s, other, answer); send in z.pending && z.pending[send] == s.pending[send]
  {
  }

  lemma SubmitKeepsPending(s: State, gate: bool, prepared: bool, key: string, reply: Reply, send: nat)
    requires Inv(s) && send in s.pending
    ensures var z := DoSubmit(s, gate, prepared, key, reply);
            send in z.pending && z.pending[send] == s.pending[send]
  {
    assert send < s.nextSend;
    LaunchKeepsPending(s, key, send);
    if reply.Now? { FinishKeepsPending(Launched(s, key), s.nextSend, reply.answer, send); }
    if !Held(s, key) { TicketReleased(s, key); }
  }

  /** A pending send stays as it is until it is answered. */
  lemma PendingStays(s: State, e: Event, send: nat)
    requires Inv(s) && send in s.pending && !(e.Finish? && e.send == send)
    ensures send in Apply(s, e).pending && Apply(s, e).pending[send] == s.pending[send]
  {
    match e
    case Submit(gate, prepared, key, reply) => SubmitKeepsPending(s, gate, prepared, key, reply, send);
    case Finish(other, answer) => FinishKeepsPending(s, other, answer, send);
    case Switch(conv) => SwitchKeeps(s, conv);
    case TakeBack(conv, text, token) => TakeBackKeepsSends(s, conv, text, token);
    case Type(_) =>
    case Insert(text, token) => BoxKeepsPending(s, text, token, 0);
    case Restore(id) => BoxKeepsPending(s, "", 0, id);
    case Discard(id) => BoxKeepsPending(s, "", 0, id);
  }

  lemma BoxKeepsPending(s: State, text: string, token: nat, id: nat)
    ensures DoInsert(s, text, token).pending == s.pending
    ensures DoRestore(s, id).pending == s.pending && DoDiscard(s, id).pending == s.pending
  {
  }

  lemma {:induction false} RunKeepsPending(s: State, es: seq<Event>, send: nat)
    requires Inv(s) && send in s.pending
    requires forall i | 0 <= i < |es| :: !es[i].Switch? && !(es[i].Finish? && es[i].send == send)
    ensures var z := Run(s, es); Inv(z) && z.conv == s.conv && send in z.pending && z.pending[send] == s.pending[send]
    decreases |es|
  {
    if es != [] {
      PendingStays(s, es[0], send);
      ConvStays(s, es[0]);
      InvApply(s, es[0]);
      RunKeepsPending(Apply(s, es[0]), es[1..], send);
    }
  }

  lemma LaunchedIs(s: State, key: string)
    requires Inv(s) && MaySubmit(s, true, true) && !Held(s, key)
    ensures var sent := Launched(s, key);
            && Inv(sent) && Apply(s, Submit(true, true, key, Later)) == sent && sent.conv == s.conv
            && sent.pending == s.pending[s.nextSend := Pending(Norm(s.box), key, s.conv, s.epoch)]
  {
    InvLaunched(s, key);
  }

  /** So while the conversation is not left, a message whose send fails is still kept, whatever
      the user typed, sent, restored or discarded meanwhile. */
  lemma FailureLosesNothing(s: State, key: string, es: seq<Event>)
    requires Inv(s) && MaySubmit(s, true, true) && !Held(s, key)
    requires forall i | 0 <= i < |es| :: !es[i].Switch? && !(es[i].Finish? && es[i].send == s.nextSend)
    ensures var sent := Apply(s, Submit(true, true, key, Later));
            var z := Apply(Run(sent, es), Finish(s.nextSend, Rejected));
            sent.pending.Keys == s.pending.Keys + {s.nextSend} && Kept(z, Whole(Norm(s.box))) > 0
  {
    LaunchedIs(s, key);
    var sent := Launched(s, key);
    RunKeepsPending(sent, es, s.nextSend);
    FailedSendReturns(Run(sent, es), s.nextSend, Rejected);
  }

  /** `onSend` is called exactly when there is something to send, nothing is still uploading,
      the gate and the audience prompt agree, and the same message is not in flight. */
  lemma SendsIff(s: State, gate: bool, prepared: bool, key: string, reply: Reply)
    requires Inv(s)
    ensures Apply(s, Submit(gate, prepared, key, reply)).nextSend ==
              s.nextSend +
              if (Trim(s.box.text) != "" || s.box.atts != []) && (forall i | 0 <= i < |s.box.atts| :: !s.box.atts[i].uploading)
                 && gate && prepared && (key == "" || key !in s.inflight)
              then 1 else 0
  {
    if MaySubmit(s, gate, prepared) && !Held(s, key) {
      TicketReleased(s, key);
      InvLaunched(s, key);
      if reply.Now? { FinishKeepsCount(Launched(s, key), s.nextSend, reply.answer); }
    }
  }

  lemma FinishKeepsCount(s: State, send: nat, answer: Answer)
    ensures DoFinish(s, send, answer).nextSend == s.nextSend
  {
  }

  /** A text handed back for another conversation, or a second time, is ignored; otherwise it
      is taken once. */
  lemma TakesBackIff(s: State, conv: Conv, text: string, token: nat)
    ensures var z := Apply(s, TakeBack(conv, text, token));
            if (conv.Some? && s.conv.Some? && conv.value != s.conv.value) || s.restoreToken == Some(token)
            then z == s else z.restoreToken == Some(token)
  {
  }

  /** A suggestion is applied once: repeating it changes nothing. */
  lemma InsertOnce(s: State, text: string, token: nat)
    requires text != ""
    ensures var z := Apply(s, Insert(text, token));
            && z.insertToken == Some(token) && Apply(z, Insert(text, token)) == z
            && (s.insertToken != Some(token) ==> z.box.text == text)
  {
  }

  /** The storage of the conversation shown follows the box whenever anything but the user's
      typing changes its text. */
  lemma StorageFollows(s: State, e: Event)
    requires Inv(s) && s.conv.Some? && !e.Type? && !e.Switch? && !(e.TakeBack? && e.text == "")
    requires Apply(s, e).box.text != s.box.text
    ensures StoredText(Apply(s, e), s.conv.value) == Apply(s, e).box.text
  {
    match e
    case Submit(gate, prepared, key, reply) =>
      if MaySubmit(s, gate, prepared) && !Held(s, key) { SubmitStores(s, key, reply); }
    case Finish(send, answer) => FinishStores(s, send, answer);
    case Insert(text, token) => InsertStores(s, text, token);
    case Restore(id) => RestoreStores(s, id);
    case Discard(_) =>
    case TakeBack(conv, text, token) => TakeBackStores(s, conv, text, token);
  }

  lemma FinishStores(s: State, send: nat, answer: Answer)
    requires s.conv.Some?
    ensures var z := DoFinish(s, send, answer);
            z.box.text == s.box.text || StoredText(z, s.conv.value) == z.box.text
  {
  }

  lemma InsertStores(s: State, text: string, token: nat)
    requires s.conv.Some?
    ensures var z := DoInsert(s, text, token);
            z.box.text == s.box.text || StoredText(z, s.conv.value) == z.box.text
  {
  }

  lemma RestoreStores(s: State, id: nat)
    requires s.conv.Some?
    ensures var z := DoRestore(s, id);
            z.box.text == s.box.text || StoredText(z, s.conv.value) == z.box.text
  {
  }

  lemma TakeBackStores(s: State, conv: Conv, text: string, token: nat)
    requires s.conv.Some? && text != ""
    ensures var z := DoTakeBack(s, conv, text, token);
            z.box.text == s.box.text || StoredText(z, s.conv.value) == z.box.text
  {
  }

  lemma SubmitStores(s: State, key: string, reply: Reply)
    requires Inv(s) && s.conv.Some? && MaySubmit(s, true, true) && !Held(s, key)
    ensures var z := DoSubmit(s, true, true, key, reply);
            z == s.(nextSend := z.nextSend) || (z.box.text == "" && StoredText(z, s.conv.value) == "")
  {
    TicketReleased(s, key);
    InvLaunched(s, key);
    if reply == Now(Sent) { FinishPlaces(Launched(s, key), s.nextSend, Sent); }
  }

  // ---------------------------------------------------------------- sending once

  /** A submit that passes the other guards is held back exactly when the same key is
      already pending since the keys were last cleared. */
  lemma HeldIff(s: State, key: string)
    requires Inv(s) && key != ""
    ensures Held(s, key) <==> exists i :: i in s.pending && s.pending[i].key == key && s.pending[i].epoch == s.epoch
  {
    if Held(s, key) {
      assert s.pending[s.inflight[key]].key == key;
    }
  }

  lemma LaunchedAdds(s: State, key: string)
    requires Inv(s)
    ensures Launched(s, key).pending.Keys > s.pending.Keys
  {
    assert s.nextSend !in s.pending;
    assert s.nextSend in Launched(s, key).pending;
  }

  /** So a key that is already pending is sent a second time exactly when the conversation
      has been left since every earlier send of it. */
  lemma SecondSendIff(s: State, key: string)
    requires Inv(s) && key != "" && MaySubmit(s, true, true)
    requires exists i :: i in s.pending && s.pending[i].key == key
    ensures var z := Apply(s, Submit(true, true, key, Later));
            (z.pending.Keys > s.pending.Keys) <==>
              forall i | i in s.pending && s.pending[i].key == key :: s.pending[i].epoch < s.epoch
  {
    HeldIff(s, key);
    LaunchedAdds(s, key);
    assert Apply(s, Submit(true, true, key, Later)) == if Held(s, key) then s else Launched(s, key);
    if !Held(s, key) {
      forall i | i in s.pending && s.pending[i].key == key ensures s.pending[i].epoch < s.epoch {
        assert PendingOk(s.pending[i], s.epoch);
      }
    }
  }

  /** No key is pending twice within one stay in a conversation.  The epoch, and so the
      chance of a second send, changes only when a conversation is left. */
  lemma NeverTwice(conv: Conv, es: seq<Event>, i: nat, j: nat)
    requires var s := Run(Begin(conv), es);
             i in s.pending && j in s.pending && i != j && s.pending[i].key == s.pending[j].key && s.pending[i].key != ""
    ensures Run(Begin(conv), es).pending[i].epoch != Run(Begin(conv), es).pending[j].epoch
  {
    InvBegin(conv);
    InvRun(Begin(conv), es);
  }

  lemma SubmitStays(s: State, gate: bool, prepared: bool, key: string, reply: Reply)
    requires Inv(s)
    ensures Apply(s, Submit(gate, prepared, key, reply)).epoch == s.epoch
  {
    if MaySubmit(s, gate, prepared) && !Held(s, key) {
      TicketReleased(s, key);
      InvLaunched(s, key);
      if reply.Now? { FinishPlaces(Launched(s, key), s.nextSend, reply.answer); }
    }
  }

  lemma EpochMoves(s: State, e: Event)
    requires Inv(s)
    ensures Apply(s, e).epoch == s.epoch + (if e.Switch? && s.conv.Some? && e.conv != s.conv then 1 else 0)
  {
    match e
    case Finish(send, answer) => if send in s.pending { FinishPlaces(s, send, answer); }
    case Submit(gate, prepared, key, reply) => SubmitStays(s, gate, prepared, key, reply);
    case Switch(conv) => SwitchKeeps(s, conv);
    case _ =>
  }

  /** Typing one letter and sending it, when nothing with that key is in flight. */
  lemma SendLetter(s: State)
    requires "a" !in s.inflight
    ensures var z := Run(s, [Type(Draft("a", [], [])), Submit(true, true, "a", Later)]);
            && z.pending == s.pending[s.nextSend := Pending(Draft("a", [], []), "a", s.conv, s.epoch)]
            && z.nextSend == s.nextSend + 1 && z.conv == s.conv
  {
    var d := Draft("a", [], []);
    var send := Submit(true, true, "a", Later);
    var typed := DoType(s, d);
    assert typed.box == d && Trim("a") == "a";
    assert Run(typed, [send]) == Run(Apply(typed, send), []);
    assert Run(s, [Type(d), send]) == Run(typed, [send]);
    assert Apply(typed, send) == Launched(typed, "a");
  }

  lemma LeaveAndReturn(s: State, a: nat, b: nat)
    requires s.conv == Some(a) && a != b
    ensures var z := Run(s, [Switch(Some(b)), Switch(Some(a))]);
            z.pending == s.pending && z.nextSend == s.nextSend && z.conv == s.conv && z.inflight == map[]
  {
    SwitchKeeps(s, Some(b));
    SwitchKeeps(DoSwitch(s, Some(b)), Some(a));
    assert Run(DoSwitch(s, Some(b)), [Switch(Some(a))]) == Run(DoSwitch(DoSwitch(s, Some(b)), Some(a)), []);
  }

  lemma {:induction false} RunAppend(s: State, es: seq<Event>, fs: seq<Event>)
    ensures Run(s, es + fs) == Run(Run(s, es), fs)
    decreases |es|
  {
    if es == [] {
      assert es + fs == fs;
    } else {
      assert (es + fs)[1..] == es[1..] + fs;
      RunAppend(Apply(s, es[0]), es[1..], fs);
    }
  }

  /** Leaving a conversation and coming back does let the same key be pending twice in it,
      from any state of the page in a conversation where the key is not in flight. */
  lemma TwiceAfterComingBack(s: State, a: nat, b: nat)
    requires s.conv == Some(a) && a != b && "a" !in s.inflight && s.nextSend !in s.pending
    ensures var letter := [Type(Draft("a", [], [])), Submit(true, true, "a", Later)];
            var z := Run(s, letter + ([Switch(Some(b)), Switch(Some(a))] + letter));
            var i, j := s.nextSend, s.nextSend + 1;
            && i in z.pending && j in z.pending && z.conv == Some(a)
            && z.pending[i].key == z.pending[j].key == "a" && z.pending[i].conv == z.pending[j].conv == Some(a)
  {
    var letter := [Type(Draft("a", [], [])), Submit(true, true, "a", Later)];
    var back := [Switch(Some(b)), Switch(Some(a))];
    RunAppend(s, letter, back + letter);
    SendLetter(s);
    var z1 := Run(s, letter);
    RunAppend(z1, back, letter);
    LeaveAndReturn(z1, a, b);
    SendLetter(Run(z1, back));
  }

  // ---------------------------------------------------------------- changing conversation

  /** Going from one conversation to another and back restores the box, every recoverable
      list and the pending sends. */
  lemma ThereAndBack(s: State, a: nat, b: nat)
    requires s.conv == Some(a) && a != b
    ensures var z := DoSwitch(DoSwitch(s, Some(b)), Some(a));
            z.box == s.box && z.pending == s.pending && forall c :: ListOf(z, c) == ListOf(s, c)
  {
    SwitchKeeps(s, Some(b));
    SwitchKeeps(DoSwitch(s, Some(b)), Some(a));
  }

  /** Changing conversation loses the typed text exactly when the page had no conversation
      yet and the one opened has a stored draft of its own: otherwise the text is still in
      the box or in storage under the conversation it was typed in. */
  lemma SwitchLosesTextIff(s: State, conv: Conv)
    requires s.box.text != "" && conv != s.conv
    ensures var z := DoSwitch(s, conv);
            var kept := z.box.text == s.box.text || (s.conv.Some? && StoredText(z, s.conv.value) == s.box.text);
            !kept <==> s.conv.None? && StoredText(s, conv.value) != "" && StoredText(s, conv.value) != s.box.text
  {
  }

  // ---------------------------------------------------------------- the component

  /** The refs of `Composer`, changed in place.  Each method is one event; its contract is
      the event's function. */
  class Composer {
    var text: string
    var atts: seq<Att>
    var skills: seq<nat>
    var recoverable: seq<Entry>
    var recoverableByConv: map<Conv, seq<Entry>>
    var sessionDrafts: map<nat, string>
    var conversation: Conv
    var recoverableSeq: nat
    var inflightSends: map<string, nat>
    var pendingSends: map<nat, Pending>
    var sends: nat
    var appliedInsert: Option<nat>
    var appliedRestore: Option<nat>
    var cleared: nat

    function Snap(): State
      reads this
    {
      State(Draft(text, atts, skills), recoverableByConv[conversation := recoverable], sessionDrafts, conversation,
            recoverableSeq, inflightSends, pendingSends, sends, appliedInsert, appliedRestore, cleared)
    }

    constructor (conv: Conv)
      ensures Snap() == Begin(conv)
    {
      text, atts, skills, recoverable, recoverableByConv := "", [], [], [], map[];
      sessionDrafts, conversation, recoverableSeq := map[], conv, 0;
      inflightSends, pendingSends, sends := map[], map[], 0;
      appliedInsert, appliedRestore, cleared := None, None, 0;
    }

    method ApplySkills(list: seq<nat>)
      modifies this`skills
      ensures skills == Distinct(list, [])
    {
      var next := [];
      for k := 0 to |list|
        invariant Distinct(list[k..], next) == Distinct(list, [])
      {
        assert list[k..][1..] == list[k + 1..];
        if list[k] !in next {
          next := next + [list[k]];
        }
      }
      skills := next;
    }

    method SetBoxNow(newText: string, newAtts: seq<Att>, newSkills: seq<nat>)
      modifies this`text, this`atts, this`skills
      ensures Snap() == SetBox(old(Snap()), newText, newAtts, newSkills)
    {
      text, atts := newText, newAtts;
      ApplySkills(newSkills);
    }

    method WriteDraftNow(value: string)
      modifies this`sessionDrafts
      ensures Snap() == WriteNow(old(Snap()), value)
    {
      if conversation.Some? {
        if value != "" {
          sessionDrafts := sessionDrafts[conversation.value := value];
        } else {
          sessionDrafts := sessionDrafts - {conversation.value};
        }
      }
    }

    method PublishRecoverable(drafts: seq<Entry>)
      modifies this`recoverable, this`recoverableByConv
      ensures Snap() == Publish(old(Snap()), drafts)
    {
      recoverable := drafts;
      recoverableByConv := recoverableByConv[conversation := drafts];
    }

    method RetainRecoverable(d: Draft)
      modifies this`recoverable, this`recoverableByConv, this`recoverableSeq
      ensures Snap() == Retain(old(Snap()), d)
    {
      var entry := Entry(recoverableSeq, d);
      recoverableSeq := recoverableSeq + 1;
      PublishRecoverable(recoverable + [entry]);
    }

    method DiscardRecoverable(id: nat)
      modifies this
      ensures Snap() == DoDiscard(old(Snap()), id)
    {
      if Has(recoverable, id) {
        PublishRecoverable(Without(recoverable, id));
      }
    }

    method RestoreRecoverable(id: nat)
      modifies this
      ensures Snap() == DoRestore(old(Snap()), id)
    {
      if !Has(recoverable, id) {
        return;
      }
      var chosen := Pick(recoverable, id).draft;
      var current := Draft(text, atts, skills);
      var next := Without(recoverable, id);
      if !Blank(current) {
        next := next + [Entry(recoverableSeq, current)];
        recoverableSeq := recoverableSeq + 1;
      }
      PublishRecoverable(next);
      WriteDraftNow(chosen.text);
      SetBoxNow(chosen.text, chosen.atts, chosen.skills);
    }

    method InsertSuggestion(incoming: string, token: nat)
      modifies this
      ensures Snap() == DoInsert(old(Snap()), incoming, token)
    {
      if incoming == "" || appliedInsert == Some(token) {
        return;
      }
      appliedInsert := Some(token);
      var current := Draft(text, atts, skills);
      if HasDraft(current, incoming) {
        RetainRecoverable(current);
        atts := [];
        ApplySkills([]);
      }
      text := incoming;
      WriteDraftNow(incoming);
    }

    method TakeRestoredDraft(conv: Conv, incoming: string, token: nat)
      modifies this
      ensures Snap() == DoTakeBack(old(Snap()), conv, incoming, token)
    {
      if conv.Some? && conversation.Some? && conv != conversation {
        return;
      }
      if appliedRestore == Some(token) {
        return;
      }
      appliedRestore := Some(token);
      if Trim(text) == "" && atts == [] {
        text := incoming;
        if incoming != "" {
          WriteDraftNow(incoming);
        }
        return;
      }
      if text == incoming && atts == [] {
        return;
      }
      RetainRecoverable(Draft(incoming, [], []));
    }

    method ReleaseInflight(send: nat, key: string)
      modifies this`inflightSends
      ensures Snap() == Release(old(Snap()), send, key)
    {
      if key != "" && key in inflightSends && inflightSends[key] == send {
        inflightSends := inflightSends - {key};
      }
    }

    method FinishSend(send: nat, answer: Answer)
      modifies this
      ensures Snap() == DoFinish(old(Snap()), send, answer)
    {
      if send !in pendingSends {
        return;
      }
      var p := pendingSends[send];
      ReleaseInflight(send, p.key);
      pendingSends := pendingSends - {send};
      var same := conversation == p.conv || (answer.RejectedIn? && conversation == answer.conv);
      if !same || answer.Sent? {
        return;
      }
      if Blank(Draft(text, atts, skills)) {
        WriteDraftNow(p.draft.text);
        SetBoxNow(p.draft.text, p.draft.atts, p.draft.skills);
      } else {
        RetainRecoverable(p.draft);
      }
    }

    method TakeTicket(key: string) returns (send: nat)
      modifies this`sends, this`inflightSends
      ensures send == old(sends) && Snap() == Ticketed(old(Snap()), key)
    {
      send := sends;
      sends := sends + 1;
      if key != "" {
        inflightSends := inflightSends[key := send];
      }
    }

    method EmptyBox()
      modifies this`text, this`atts, this`skills, this`sessionDrafts
      ensures Snap() == Emptied(old(Snap()))
    {
      SetBoxNow("", [], []);
      WriteDraftNow("");
    }

    method SubmitDraft(gate: bool, prepared: bool, key: string, reply: Reply)
      modifies this
      ensures Snap() == DoSubmit(old(Snap()), gate, prepared, key, reply)
    {
      var source := Trim(text);
      if source == "" && atts == [] {
        return;
      }
      if exists a | a in atts :: a.uploading {
        return;
      }
      if !gate || !prepared || (key != "" && key in inflightSends) {
        return;
      }
      var send := TakeTicket(key);
      if reply.Threw? || (reply.Now? && !reply.answer.Sent?) {
        ReleaseInflight(send, key);
        return;
      }
      pendingSends := pendingSends[send := Pending(Draft(source, atts, skills), key, conversation, cleared)];
      EmptyBox();
      if reply.Now? {
        FinishSend(send, reply.answer);
      }
    }

    method LeaveConversation(conv: Conv)
      modifies this
      ensures Snap() == Leave(old(Snap()), conv)
    {
      if conversation.Some? {
        inflightSends := map[];
        cleared := cleared + 1;
      }
      recoverableByConv := recoverableByConv[conversation := recoverable];
      WriteDraftNow(text);
      conversation := conv;
      recoverable := if conv in recoverableByConv then recoverableByConv[conv] else [];
    }

    method SwitchConversation(conv: Conv)
      modifies this
      ensures Snap() == DoSwitch(old(Snap()), conv)
    {
      if conv == conversation {
        return;
      }
      var previous := conversation;
      LeaveConversation(conv);
      if conv.None? {
        return;
      }
      var stored := if conv.value in sessionDrafts then sessionDrafts[conv.value] else "";
      if previous.None? && stored == "" && text != "" {
        sessionDrafts := sessionDrafts[conv.value := text];
        return;
      }
      text := stored;
    }
  }
}
