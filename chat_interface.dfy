/**
 * The chat screen: history rows grouped into sessions, a session flattened back
 * into the message list, deletion of a session from the sidebar, sending a
 * query and clearing the chat. The requests (history fetch, delete, chatbot)
 * are inputs; toasts, scrolling, rendering and the confirm dialog's text are
 * not part of this model.
 */
module ChatInterface {
  import opened Wrappers
  import opened Strings
  import opened JsValues
  import opened Http
  import ChatbotService

  // ---- grouping history rows into sessions ----

  /** One message of a session: `{ text, response, timestamp }`. */
  datatype Entry = Entry(text: JsValue, response: JsValue, timestamp: JsValue)

  /** A session of the sidebar: `{ session_id, messages, lastMessage }`. */
  datatype Group = Group(sessionId: JsValue, messages: seq<Entry>, lastMessage: JsValue)

  /** `item.session_id || 'default'` */
  function SessionOf(row: JsValue): JsValue {
    Or(Get(row, "session_id"), Str("default"))
  }

  /** The property name the session is stored under in the accumulator object. */
  function RowKey(row: JsValue): string {
    ToJsString(SessionOf(row))
  }

  function GroupKey(g: Group): string {
    ToJsString(g.sessionId)
  }

  function EntryOf(row: JsValue): Entry {
    Entry(Get(row, "message"), Get(row, "response"), Get(row, "created_at"))
  }

  /** `data?.data?.history || []`; `reduce` fails on anything but an array of rows. */
  function HistoryList(data: JsValue): (r: Option<seq<JsValue>>)
    ensures r.Some? ==> forall j :: 0 <= j < |r.value| ==> !IsNullish(r.value[j])
    ensures !Truthy(Get(Get(data, "data"), "history")) ==> r == Some([])
    ensures var h := Get(Get(data, "data"), "history");
      h.Arr? && (forall j :: 0 <= j < |h.items| ==> !IsNullish(h.items[j])) ==> r == Some(h.items)
    ensures var h := Get(Get(data, "data"), "history");
      Truthy(h) && !h.Arr? ==> r.None?
  {
    var h := Or(Get(Get(data, "data"), "history"), Arr([]));
    if h.Arr? && forall j :: 0 <= j < |h.items| ==> !IsNullish(h.items[j]) then Some(h.items) else None
  }

  /** The first row carrying `key`. */
  function FirstWithKey(h: seq<JsValue>, key: string): (r: Option<nat>)
    ensures r.Some? ==> r.value < |h| && RowKey(h[r.value]) == key && forall j :: 0 <= j < r.value ==> RowKey(h[j]) != key
    ensures r.None? ==> forall j :: 0 <= j < |h| ==> RowKey(h[j]) != key
  {
    if h == [] then None
    else match FirstWithKey(h[..|h| - 1], key)
      case Some(j) => Some(j)
      case None => if RowKey(h[|h| - 1]) == key then Some(|h| - 1) else None
  }

  /** The entries of the rows carrying `key`, in row order. */
  function EntriesWithKey(h: seq<JsValue>, key: string): seq<Entry> {
    if h == [] then []
    else EntriesWithKey(h[..|h| - 1], key) + (if RowKey(h[|h| - 1]) == key then [EntryOf(h[|h| - 1])] else [])
  }

  /**
   * `g` summarises the rows of `h` carrying its key: their entries in row
   * order, and the `session_id` and `created_at` of the first of them.
   */
  predicate Summary(h: seq<JsValue>, g: Group) {
    var f := FirstWithKey(h, GroupKey(g));
    f.Some? && g.messages == EntriesWithKey(h, GroupKey(g)) &&
    g.sessionId == SessionOf(h[f.value]) && g.lastMessage == Get(h[f.value], "created_at")
  }

  /** The groups come in the order their keys first occur. */
  predicate InFirstOrder(h: seq<JsValue>, groups: seq<Group>) {
    forall p, q :: 0 <= p < q < |groups| ==>
      FirstWithKey(h, GroupKey(groups[p])).Some? && FirstWithKey(h, GroupKey(groups[q])).Some? &&
      FirstWithKey(h, GroupKey(groups[p])).value < FirstWithKey(h, GroupKey(groups[q])).value
  }

  /** The groups' keys, in order. */
  function Keys(groups: seq<Group>): (r: seq<string>)
    ensures |r| == |groups| && forall p :: 0 <= p < |groups| ==> r[p] == GroupKey(groups[p])
  {
    if groups == [] then [] else Keys(groups[..|groups| - 1]) + [GroupKey(groups[|groups| - 1])]
  }

  /**
   * `groups` is the grouping of `history`: one group per distinct key, in the
   * order the keys first occur, each summarising the rows with its key.
   */
  predicate IsGrouping(history: seq<JsValue>, groups: seq<Group>) {
    (forall p, q :: 0 <= p < q < |groups| ==> GroupKey(groups[p]) != GroupKey(groups[q])) &&
    (forall j :: 0 <= j < |history| ==> RowKey(history[j]) in Keys(groups)) &&
    (forall p :: 0 <= p < |groups| ==> Summary(history, groups[p])) &&
    InFirstOrder(history, groups)
  }

  /** The accumulator object: `index` maps each key seen so far to its group's position. */
  predicate Accumulated(h: seq<JsValue>, groups: seq<Group>, index: map<string, nat>) {
    Covers(h, index) && Indexes(groups, index) && Summaries(h, groups) && InFirstOrder(h, groups)
  }

  predicate Covers(h: seq<JsValue>, index: map<string, nat>) {
    (forall k :: k in index ==> FirstWithKey(h, k).Some?) &&
    (forall j :: 0 <= j < |h| ==> RowKey(h[j]) in index)
  }

  predicate Indexes(groups: seq<Group>, index: map<string, nat>) {
    (forall k :: k in index ==> index[k] < |groups| && GroupKey(groups[index[k]]) == k) &&
    (forall p :: 0 <= p < |groups| ==> GroupKey(groups[p]) in index && index[GroupKey(groups[p])] == p)
  }

  predicate Summaries(h: seq<JsValue>, groups: seq<Group>) {
    forall p :: 0 <= p < |groups| ==> Summary(h, groups[p])
  }

  lemma FirstWithKeyStep(h: seq<JsValue>, row: JsValue, key: string)
    ensures FirstWithKey(h + [row], key) ==
      if FirstWithKey(h, key).Some? then FirstWithKey(h, key)
      else if RowKey(row) == key then Some(|h|) else None
  {
    assert (h + [row])[..|h|] == h;
  }

  lemma EntriesWithKeyStep(h: seq<JsValue>, row: JsValue, key: string)
    ensures EntriesWithKey(h + [row], key) ==
      EntriesWithKey(h, key) + (if RowKey(row) == key then [EntryOf(row)] else [])
  {
    assert (h + [row])[..|h|] == h;
  }

  lemma {:induction false} EntriesWithAbsentKey(h: seq<JsValue>, key: string)
    requires FirstWithKey(h, key).None?
    ensures EntriesWithKey(h, key) == []
  {
    if h != [] {
      var n := |h| - 1;
      assert FirstWithKey(h[..n], key).None?;
      EntriesWithAbsentKey(h[..n], key);
    }
  }

  /** A row with another key leaves a summary as it is. */
  lemma SummaryOther(h: seq<JsValue>, row: JsValue, g: Group)
    requires Summary(h, g) && RowKey(row) != GroupKey(g)
    ensures Summary(h + [row], g)
  {
    FirstWithKeyStep(h, row, GroupKey(g));
    EntriesWithKeyStep(h, row, GroupKey(g));
    var f := FirstWithKey(h, GroupKey(g)).value;
    assert (h + [row])[f] == h[f];
  }

  /** A row with the group's key is pushed onto its messages. */
  lemma SummaryPush(h: seq<JsValue>, row: JsValue, g: Group)
    requires Summary(h, g) && RowKey(row) == GroupKey(g)
    ensures Summary(h + [row], g.(messages := g.messages + [EntryOf(row)]))
  {
    FirstWithKeyStep(h, row, GroupKey(g));
    EntriesWithKeyStep(h, row, GroupKey(g));
    var f := FirstWithKey(h, GroupKey(g)).value;
    assert (h + [row])[f] == h[f];
  }

  /** The first row with a new key opens a group. */
  lemma SummaryOpen(h: seq<JsValue>, row: JsValue)
    requires FirstWithKey(h, RowKey(row)).None?
    ensures Summary(h + [row], Group(SessionOf(row), [EntryOf(row)], Get(row, "created_at")))
  {
    FirstWithKeyStep(h, row, RowKey(row));
    EntriesWithKeyStep(h, row, RowKey(row));
    EntriesWithAbsentKey(h, RowKey(row));
    assert (h + [row])[|h|] == row;
  }

  lemma CoversStep(h: seq<JsValue>, row: JsValue, index: map<string, nat>, n: nat)
    requires Covers(h, index)
    ensures Covers(h + [row], index[RowKey(row) := n])
  {
    forall k | k in index[RowKey(row) := n] ensures FirstWithKey(h + [row], k).Some? {
      FirstWithKeyStep(h, row, k);
    }
    forall j | 0 <= j < |h| + 1 ensures RowKey((h + [row])[j]) in index[RowKey(row) := n] {
      if j < |h| {
        assert (h + [row])[j] == h[j];
      }
    }
  }

  /** Firsts already seen do not move when a row is appended. */
  lemma FirstsStay(h: seq<JsValue>, row: JsValue, groups: seq<Group>)
    requires Summaries(h, groups)
    ensures forall p :: 0 <= p < |groups| ==> FirstWithKey(h + [row], GroupKey(groups[p])) == FirstWithKey(h, GroupKey(groups[p]))
  {
    forall p | 0 <= p < |groups| ensures FirstWithKey(h + [row], GroupKey(groups[p])) == FirstWithKey(h, GroupKey(groups[p])) {
      assert Summary(h, groups[p]);
      FirstWithKeyStep(h, row, GroupKey(groups[p]));
    }
  }

  lemma OrderExisting(h: seq<JsValue>, row: JsValue, groups: seq<Group>, p: nat, g: Group)
    requires Summaries(h, groups) && InFirstOrder(h, groups) && p < |groups| && g.sessionId == groups[p].sessionId
    ensures InFirstOrder(h + [row], groups[p := g])
  {
    FirstsStay(h, row, groups);
    assert forall q :: 0 <= q < |groups| ==> GroupKey(groups[p := g][q]) == GroupKey(groups[q]);
  }

  lemma OrderNew(h: seq<JsValue>, row: JsValue, groups: seq<Group>, g: Group)
    requires Summaries(h, groups) && InFirstOrder(h, groups)
    requires GroupKey(g) == RowKey(row) && FirstWithKey(h, RowKey(row)).None?
    ensures InFirstOrder(h + [row], groups + [g])
  {
    var h', gs := h + [row], groups + [g];
    FirstsStay(h, row, groups);
    FirstWithKeyStep(h, row, RowKey(row));
    forall p, q | 0 <= p < q < |gs|
      ensures FirstWithKey(h', GroupKey(gs[p])).Some? && FirstWithKey(h', GroupKey(gs[q])).Some? &&
              FirstWithKey(h', GroupKey(gs[p])).value < FirstWithKey(h', GroupKey(gs[q])).value
    {
      assert gs[p] == groups[p] && Summary(h, groups[p]);
      if q < |groups| {
        assert gs[q] == groups[q];
      } else {
        assert gs[q] == g;
      }
    }
  }

  lemma IndexesExisting(groups: seq<Group>, index: map<string, nat>, p: nat, g: Group)
    requires Indexes(groups, index) && p < |groups| && g.sessionId == groups[p].sessionId
    ensures Indexes(groups[p := g], index)
  {
    assert forall q :: 0 <= q < |groups| ==> GroupKey(groups[p := g][q]) == GroupKey(groups[q]);
  }

  lemma IndexesNew(groups: seq<Group>, index: map<string, nat>, g: Group)
    requires Indexes(groups, index) && GroupKey(g) !in index
    ensures Indexes(groups + [g], index[GroupKey(g) := |groups|])
  {
    assert forall q :: 0 <= q < |groups| ==> (groups + [g])[q] == groups[q];
  }

  lemma SummariesExisting(h: seq<JsValue>, row: JsValue, groups: seq<Group>, p: nat)
    requires Summaries(h, groups) && p < |groups| && GroupKey(groups[p]) == RowKey(row)
    requires forall q :: 0 <= q < |groups| && q != p ==> GroupKey(groups[q]) != RowKey(row)
    ensures Summaries(h + [row], groups[p := groups[p].(messages := groups[p].messages + [EntryOf(row)])])
  {
    var groups' := groups[p := groups[p].(messages := groups[p].messages + [EntryOf(row)])];
    forall q | 0 <= q < |groups'| ensures Summary(h + [row], groups'[q]) {
      if q == p {
        SummaryPush(h, row, groups[p]);
      } else {
        SummaryOther(h, row, groups[q]);
      }
    }
  }

  lemma SummariesNew(h: seq<JsValue>, row: JsValue, groups: seq<Group>)
    requires Summaries(h, groups) && FirstWithKey(h, RowKey(row)).None?
    requires forall q :: 0 <= q < |groups| ==> GroupKey(groups[q]) != RowKey(row)
    ensures Summaries(h + [row], groups + [Group(SessionOf(row), [EntryOf(row)], Get(row, "created_at"))])
  {
    var groups' := groups + [Group(SessionOf(row), [EntryOf(row)], Get(row, "created_at"))];
    forall q | 0 <= q < |groups'| ensures Summary(h + [row], groups'[q]) {
      if q == |groups| {
        SummaryOpen(h, row);
      } else {
        SummaryOther(h, row, groups[q]);
      }
    }
  }

  lemma AccumulateExisting(h: seq<JsValue>, row: JsValue, groups: seq<Group>, index: map<string, nat>)
    requires Accumulated(h, groups, index) && RowKey(row) in index
    ensures var p := index[RowKey(row)];
      Accumulated(h + [row], groups[p := groups[p].(messages := groups[p].messages + [EntryOf(row)])], index)
  {
    var p := index[RowKey(row)];
    var g := groups[p].(messages := groups[p].messages + [EntryOf(row)]);
    CoversStep(h, row, index, p);
    assert index[RowKey(row) := p] == index;
    SummariesExisting(h, row, groups, p);
    OrderExisting(h, row, groups, p, g);
    IndexesExisting(groups, index, p, g);
  }

  lemma AccumulateNew(h: seq<JsValue>, row: JsValue, groups: seq<Group>, index: map<string, nat>)
    requires Accumulated(h, groups, index) && RowKey(row) !in index
    ensures Accumulated(h + [row], groups + [Group(SessionOf(row), [EntryOf(row)], Get(row, "created_at"))],
                        index[RowKey(row) := |groups|])
  {
    var g := Group(SessionOf(row), [EntryOf(row)], Get(row, "created_at"));
    assert GroupKey(g) == RowKey(row);
    CoversStep(h, row, index, |groups|);
    SummariesNew(h, row, groups);
    OrderNew(h, row, groups, g);
    IndexesNew(groups, index, g);
  }

  lemma AccumulatedGrouping(h: seq<JsValue>, groups: seq<Group>, index: map<string, nat>)
    requires Accumulated(h, groups, index)
    ensures IsGrouping(h, groups)
  {
    forall p, q | 0 <= p < q < |groups| ensures GroupKey(groups[p]) != GroupKey(groups[q]) {
      assert index[GroupKey(groups[p])] == p && index[GroupKey(groups[q])] == q;
    }
    forall j | 0 <= j < |h| ensures RowKey(h[j]) in Keys(groups) {
      var k := RowKey(h[j]);
      assert Keys(groups)[index[k]] == k;
    }
  }

  /** How many messages the groups hold together. */
  function Total(groups: seq<Group>): nat {
    if groups == [] then 0 else Total(groups[..|groups| - 1]) + |groups[|groups| - 1].messages|
  }

  lemma {:induction false} TotalUpdate(groups: seq<Group>, p: nat, g: Group)
    requires p < |groups| && |g.messages| == |groups[p].messages| + 1
    ensures Total(groups[p := g]) == Total(groups) + 1
    decreases |groups|
  {
    var n := |groups| - 1;
    if p < n {
      assert groups[p := g][..n] == groups[..n][p := g];
      TotalUpdate(groups[..n], p, g);
    } else {
      assert groups[p := g][..n] == groups[..n];
    }
  }

  lemma AppendTotal(groups: seq<Group>, g: Group)
    ensures Total(groups + [g]) == Total(groups) + |g.messages|
  {
    assert (groups + [g])[..|groups|] == groups;
  }

  lemma PrefixStep<T>(s: seq<T>, i: nat)
    requires i < |s|
    ensures s[..i + 1] == s[..i] + [s[i]]
  {
  }

  lemma PrefixWhole<T>(s: seq<T>)
    ensures s[..|s|] == s
  {
  }

  /** The accumulator after the rows `h`, whose messages the groups hold between them. */
  predicate Grouped(h: seq<JsValue>, groups: seq<Group>, index: map<string, nat>) {
    Accumulated(h, groups, index) && Total(groups) == |h|
  }

  lemma GroupStepNew(history: seq<JsValue>, i: nat, groups: seq<Group>, index: map<string, nat>)
    requires i < |history| && Grouped(history[..i], groups, index) && RowKey(history[i]) !in index
    ensures var row := history[i];
      var g := Group(SessionOf(row), [EntryOf(row)], Get(row, "created_at"));
      Grouped(history[..i + 1], groups + [g], index[RowKey(row) := |groups|])
  {
    var row := history[i];
    PrefixStep(history, i);
    AccumulateNew(history[..i], row, groups, index);
    AppendTotal(groups, Group(SessionOf(row), [EntryOf(row)], Get(row, "created_at")));
  }

  lemma GroupStepExisting(history: seq<JsValue>, i: nat, groups: seq<Group>, index: map<string, nat>)
    requires i < |history| && Grouped(history[..i], groups, index) && RowKey(history[i]) in index
    ensures var row := history[i];
      var p := index[RowKey(row)];
      var groups' := groups[p := groups[p].(messages := groups[p].messages + [EntryOf(row)])];
      Grouped(history[..i + 1], groups', index)
  {
    var row := history[i];
    var p := index[RowKey(row)];
    PrefixStep(history, i);
    AccumulateExisting(history[..i], row, groups, index);
    TotalUpdate(groups, p, groups[p].(messages := groups[p].messages + [EntryOf(row)]));
  }

  /**
   * `loadChatHistory`'s `reduce`: the accumulator object maps each key to the
   * position of its group, and `groups` lists the groups in the order their
   * keys were added, which is the order `Object.values` returns them in.
   */
  method GroupHistory(history: seq<JsValue>) returns (groups: seq<Group>)
    ensures IsGrouping(history, groups)
    ensures Total(groups) == |history|
  {
    groups := [];
    var index: map<string, nat> := map[];
    var i := 0;
    while i < |history|
      invariant 0 <= i <= |history|
      invariant Grouped(history[..i], groups, index)
    {
      var row := history[i];
      var key := RowKey(row);
      if key !in index {
        // a fresh group, opened with the row's entry
        var g := Group(SessionOf(row), [EntryOf(row)], Get(row, "created_at"));
        GroupStepNew(history, i, groups, index);
        index := index[key := |groups|];
        groups := groups + [g];
      } else {
        var p := index[key];
        GroupStepExisting(history, i, groups, index);
        groups := groups[p := groups[p].(messages := groups[p].messages + [EntryOf(row)])];
      }
      i := i + 1;
    }
    PrefixWhole(history);
    assert Grouped(history, groups, index);
    AccumulatedGrouping(history, groups, index);
  }

  // ---- flattening a session into messages ----

  /** A message id: a history id, or the `Date.now()` stamp of a live message. */
  datatype MessageId = Text(s: string) | Stamp(n: int)

  datatype Message = Message(id: MessageId, text: JsValue, sender: string, timestamp: JsValue)

  /** `history-${session_id}-${idx}-${sender}` */
  function HistoryId(sid: JsValue, idx: nat, sender: string): string {
    "history-" + ToJsString(sid) + "-" + NatToString(idx) + "-" + sender
  }

  /** The messages of the `idx`-th entry: the user's, then the bot's iff there is a response. */
  function Turn(sid: JsValue, idx: nat, e: Entry): seq<Message> {
    [Message(Text(HistoryId(sid, idx, "user")), e.text, "user", e.timestamp)] +
    (if Truthy(e.response) then [Message(Text(HistoryId(sid, idx, "bot")), e.response, "bot", e.timestamp)] else [])
  }

  /** The messages of the first `n` entries. */
  function Flattened(sid: JsValue, es: seq<Entry>, n: nat): seq<Message>
    requires n <= |es|
  {
    if n == 0 then [] else Flattened(sid, es, n - 1) + Turn(sid, n - 1, es[n - 1])
  }

  /** `loadHistorySession`'s `forEach`. */
  method FlattenSession(session: Group) returns (msgs: seq<Message>)
    ensures msgs == Flattened(session.sessionId, session.messages, |session.messages|)
  {
    msgs := [];
    var idx := 0;
    while idx < |session.messages|
      invariant 0 <= idx <= |session.messages|
      invariant msgs == Flattened(session.sessionId, session.messages, idx)
    {
      var msg := session.messages[idx];
      msgs := msgs + [Message(Text(HistoryId(session.sessionId, idx, "user")), msg.text, "user", msg.timestamp)];
      if Truthy(msg.response) {
        msgs := msgs + [Message(Text(HistoryId(session.sessionId, idx, "bot")), msg.response, "bot", msg.timestamp)];
      }
      idx := idx + 1;
    }
  }

  function Answered(es: seq<Entry>): nat {
    if es == [] then 0 else Answered(es[..|es| - 1]) + (if Truthy(es[|es| - 1].response) then 1 else 0)
  }

  /** The texts of the messages sent by `sender`, in order. */
  function TextsBy(msgs: seq<Message>, sender: string): seq<JsValue> {
    if msgs == [] then []
    else TextsBy(msgs[..|msgs| - 1], sender) + (if msgs[|msgs| - 1].sender == sender then [msgs[|msgs| - 1].text] else [])
  }

  function Questions(es: seq<Entry>): seq<JsValue> {
    if es == [] then [] else Questions(es[..|es| - 1]) + [es[|es| - 1].text]
  }

  function Answers(es: seq<Entry>): seq<JsValue> {
    if es == [] then []
    else Answers(es[..|es| - 1]) + (if Truthy(es[|es| - 1].response) then [es[|es| - 1].response] else [])
  }

  lemma {:induction false} TextsByConcat(a: seq<Message>, b: seq<Message>, sender: string)
    ensures TextsBy(a + b, sender) == TextsBy(a, sender) + TextsBy(b, sender)
    decreases |b|
  {
    if b == [] {
      assert a + b == a;
    } else {
      var n := |b| - 1;
      assert (a + b)[..|a| + n] == a + b[..n];
      TextsByConcat(a, b[..n], sender);
    }
  }

  /**
   * The flattened session has one user message per entry and one bot message
   * per answered entry: the user messages are the questions in order, the bot
   * messages the truthy responses in order.
   */
  lemma {:induction false} FlattenedShape(sid: JsValue, es: seq<Entry>, n: nat)
    requires n <= |es|
    ensures |Flattened(sid, es, n)| == n + Answered(es[..n])
    ensures TextsBy(Flattened(sid, es, n), "user") == Questions(es[..n])
    ensures TextsBy(Flattened(sid, es, n), "bot") == Answers(es[..n])
  {
    FlattenedLength(sid, es, n);
    FlattenedQuestions(sid, es, n);
    FlattenedAnswers(sid, es, n);
  }

  /** The texts of one turn, by sender. */
  lemma TurnTexts(sid: JsValue, idx: nat, e: Entry)
    ensures TextsBy(Turn(sid, idx, e), "user") == [e.text]
    ensures TextsBy(Turn(sid, idx, e), "bot") == if Truthy(e.response) then [e.response] else []
  {
    var t := Turn(sid, idx, e);
    var u := [t[0]];
    assert t == u + t[1..];
    TextsByConcat(u, t[1..], "user");
    TextsByConcat(u, t[1..], "bot");
    assert u[..0] == [];
    if |t| == 2 {
      assert t[1..][..0] == [];
    }
  }

  lemma {:induction false} FlattenedLength(sid: JsValue, es: seq<Entry>, n: nat)
    requires n <= |es|
    ensures |Flattened(sid, es, n)| == n + Answered(es[..n])
  {
    if n > 0 {
      FlattenedLength(sid, es, n - 1);
      assert es[..n][..n - 1] == es[..n - 1];
    }
  }

  lemma {:induction false} FlattenedQuestions(sid: JsValue, es: seq<Entry>, n: nat)
    requires n <= |es|
    ensures TextsBy(Flattened(sid, es, n), "user") == Questions(es[..n])
  {
    if n > 0 {
      FlattenedQuestions(sid, es, n - 1);
      assert es[..n][..n - 1] == es[..n - 1];
      TextsByConcat(Flattened(sid, es, n - 1), Turn(sid, n - 1, es[n - 1]), "user");
      TurnTexts(sid, n - 1, es[n - 1]);
    }
  }

  lemma {:induction false} FlattenedAnswers(sid: JsValue, es: seq<Entry>, n: nat)
    requires n <= |es|
    ensures TextsBy(Flattened(sid, es, n), "bot") == Answers(es[..n])
  {
    if n > 0 {
      FlattenedAnswers(sid, es, n - 1);
      assert es[..n][..n - 1] == es[..n - 1];
      TextsByConcat(Flattened(sid, es, n - 1), Turn(sid, n - 1, es[n - 1]), "bot");
      TurnTexts(sid, n - 1, es[n - 1]);
    }
  }

  // ---- deleting a session ----

  /** `prev.filter(session => session.session_id !== sessionId)` */
  function RemoveSession(groups: seq<Group>, sid: JsValue): (r: seq<Group>)
    ensures forall g :: g in r ==> g in groups && !StrictEquals(g.sessionId, sid)
    ensures forall g :: g in groups && !StrictEquals(g.sessionId, sid) ==> g in r
    ensures |r| <= |groups|
  {
    if groups == [] then []
    else
      var last := groups[|groups| - 1];
      RemoveSession(groups[..|groups| - 1], sid) + (if StrictEquals(last.sessionId, sid) then [] else [last])
  }

  /**
   * Removing a session distributes over concatenation, so with its action on
   * a single group it is exactly `filter`: the kept groups stay in their order.
   */
  lemma {:induction false} RemoveSessionConcat(a: seq<Group>, b: seq<Group>, sid: JsValue)
    ensures RemoveSession(a + b, sid) == RemoveSession(a, sid) + RemoveSession(b, sid)
    decreases |b|
  {
    if b == [] {
      assert a + b == a;
    } else {
      var init := b[..|b| - 1];
      var last := b[|b| - 1];
      var tail := if StrictEquals(last.sessionId, sid) then [] else [last];
      assert b == init + [last];
      assert a + b == (a + init) + [last];
      calc {
        RemoveSession(a + b, sid);
        { LastRemoved(a + init, last, sid); }
        RemoveSession(a + init, sid) + tail;
        { RemoveSessionConcat(a, init, sid); }
        RemoveSession(a, sid) + RemoveSession(init, sid) + tail;
        { LastRemoved(init, last, sid); }
        RemoveSession(a, sid) + RemoveSession(b, sid);
      }
    }
  }

  /** Removing a session from a list that ends in `last` handles `last` alone after the rest. */
  lemma LastRemoved(init: seq<Group>, last: Group, sid: JsValue)
    ensures RemoveSession(init + [last], sid) ==
      RemoveSession(init, sid) + (if StrictEquals(last.sessionId, sid) then [] else [last])
  {
    assert (init + [last])[..|init + [last]| - 1] == init;
  }

  lemma RemoveSessionSingle(g: Group, sid: JsValue)
    ensures RemoveSession([g], sid) == if StrictEquals(g.sessionId, sid) then [] else [g]
  {
    assert [g][..0] == [];
  }

  /** The test as written: the second `-`-separated field of a history id is the session id. */
  predicate NamesSessionAsWritten(m: Message, sid: JsValue) {
    m.id.Text? && StartsWith(m.id.s, "history-") &&
    var parts := Split(m.id.s, '-'); |parts| >= 2 && StrictEquals(Str(parts[1]), sid)
  }

  predicate IsCurrentSessionAsWritten(messages: seq<Message>, sid: JsValue) {
    exists j :: 0 <= j < |messages| && NamesSessionAsWritten(messages[j], sid)
  }

  /**
   * The session a history id names: what lies between `history-` and the
   * last two `-`-separated fields (the index and the sender).
   */
  function SessionOfId(id: string): Option<string> {
    if !StartsWith(id, "history-") then None
    else
      var rest := id[8..];
      match LastIndex(rest, '-')
      case None => None
      case Some(j) =>
        match LastIndex(rest[..j], '-')
        case None => None
        case Some(k) => Some(rest[..k])
  }

  lemma SessionOfIdParts(s: string, d: string, sender: string)
    requires '-' !in d && '-' !in sender
    ensures SessionOfId("history-" + s + "-" + d + "-" + sender) == Some(s)
  {
    var rest := s + "-" + d + "-" + sender;
    assert "history-" + s + "-" + d + "-" + sender == "history-" + rest;
    LastTwoDashes(s, d, sender);
    var j := |s| + 1 + |d|;
    SessionOfPrefixed(rest, j, |s|);
  }

  lemma SessionOfPrefixed(rest: string, j: nat, k: nat)
    requires j <= |rest| && LastIndex(rest, '-') == Some(j) && LastIndex(rest[..j], '-') == Some(k)
    ensures SessionOfId("history-" + rest) == Some(rest[..k])
  {
    var id := "history-" + rest;
    assert id[..8] == "history-";
    assert id[8..] == rest;
    assert StartsWith(id, "history-");
  }

  /** The last two `-` of `s-d-sender` are the ones written around `d`. */
  lemma LastTwoDashes(s: string, d: string, sender: string)
    requires '-' !in d && '-' !in sender
    ensures var rest := s + "-" + d + "-" + sender;
      var j := |s| + 1 + |d|;
      j <= |rest| && LastIndex(rest, '-') == Some(j) && LastIndex(rest[..j], '-') == Some(|s|) && rest[..|s|] == s
  {
    var front := s + "-" + d;
    assert s + "-" + d + "-" + sender == front + ['-'] + sender;
    LastIndexAfter(front, '-', sender);
    assert (front + ['-'] + sender)[..|front|] == front;
    assert front == s + ['-'] + d;
    LastIndexAfter(s, '-', d);
    assert front[..|s|] == s;
  }

  lemma NoDashInDigits(d: string)
    requires forall i :: 0 <= i < |d| ==> '0' <= d[i] <= '9'
    ensures '-' !in d
  {
  }

  /** Every id a flattened session carries gives back its session, whatever characters the session id holds. */
  lemma SessionOfHistoryId(sid: JsValue, idx: nat, sender: string)
    requires sender == "user" || sender == "bot"
    ensures SessionOfId(HistoryId(sid, idx, sender)) == Some(ToJsString(sid))
  {
    NoDashInDigits(NatToString(idx));
    assert '-' !in sender;
    SessionOfIdParts(ToJsString(sid), NatToString(idx), sender);
  }

  /** The test as intended: some message is a history message of this session. */
  predicate IsCurrentSession(messages: seq<Message>, sid: JsValue) {
    exists j :: 0 <= j < |messages| && messages[j].id.Text? && SessionOfId(messages[j].id.s) == Some(ToJsString(sid))
  }

  lemma {:induction false} FlattenedIds(sid: JsValue, es: seq<Entry>, n: nat)
    requires n <= |es|
    ensures forall j :: 0 <= j < |Flattened(sid, es, n)| ==>
      Flattened(sid, es, n)[j].id.Text? && SessionOfId(Flattened(sid, es, n)[j].id.s) == Some(ToJsString(sid))
  {
    if n > 0 {
      FlattenedIds(sid, es, n - 1);
      TurnIds(sid, n - 1, es[n - 1]);
      NamesAppend(Flattened(sid, es, n - 1), Turn(sid, n - 1, es[n - 1]), sid);
    }
  }

  /** Every message id in `msgs` is a history id of session `sid`. */
  predicate AllNameSession(msgs: seq<Message>, sid: JsValue) {
    forall j :: 0 <= j < |msgs| ==> msgs[j].id.Text? && SessionOfId(msgs[j].id.s) == Some(ToJsString(sid))
  }

  lemma TurnIds(sid: JsValue, idx: nat, e: Entry)
    ensures AllNameSession(Turn(sid, idx, e), sid)
  {
    SessionOfHistoryId(sid, idx, "user");
    SessionOfHistoryId(sid, idx, "bot");
  }

  lemma NamesAppend(a: seq<Message>, b: seq<Message>, sid: JsValue)
    requires AllNameSession(a, sid) && AllNameSession(b, sid)
    ensures AllNameSession(a + b, sid)
  {
    forall j | 0 <= j < |a + b| ensures (a + b)[j].id.Text? && SessionOfId((a + b)[j].id.s) == Some(ToJsString(sid)) {
      if j >= |a| {
        assert (a + b)[j] == b[j - |a|];
      }
    }
  }

  /**
   * A loaded session is recognised as the current view exactly when it is the
   * one being deleted: for a non-empty session, the intended test holds for its
   * own id and for no id that renders differently.
   */
  lemma LoadedSessionRecognised(g: Group, other: JsValue)
    requires g.messages != []
    ensures IsCurrentSession(Flattened(g.sessionId, g.messages, |g.messages|), g.sessionId)
    ensures ToJsString(other) != ToJsString(g.sessionId) ==>
      !IsCurrentSession(Flattened(g.sessionId, g.messages, |g.messages|), other)
  {
    var msgs := Flattened(g.sessionId, g.messages, |g.messages|);
    FlattenedIds(g.sessionId, g.messages, |g.messages|);
    FlattenedShape(g.sessionId, g.messages, |g.messages|);
    assert 0 < |msgs|;
  }

  lemma SecondField(h: string, a: string, tail: string)
    requires '-' !in h && '-' !in a
    ensures |Split(h + ['-'] + (a + ['-'] + tail), '-')| >= 2
    ensures Split(h + ['-'] + (a + ['-'] + tail), '-')[1] == a
  {
    SplitConcat(h, '-', a + ['-'] + tail);
    SplitConcat(a, '-', tail);
  }

  /** A history id, cut at the first `-` of its session id. */
  lemma HistoryIdAtDash(sid: string, idx: nat, sender: string)
    requires |Before(sid, '-')| < |sid|
    ensures HistoryId(Str(sid), idx, sender) ==
      "history" + ['-'] + (Before(sid, '-') + ['-'] + (sid[|Before(sid, '-')| + 1..] + ("-" + NatToString(idx) + "-" + sender)))
  {
    var a := Before(sid, '-');
    assert sid == a + ['-'] + sid[|a| + 1..];
  }

  lemma FieldOfCutId(id: string, a: string, t: string)
    requires '-' !in a && id == "history" + ['-'] + (a + ['-'] + t)
    ensures |Split(id, '-')| >= 2 && Split(id, '-')[1] == a
  {
    SecondField("history", a, t);
  }

  lemma FieldOfHistoryId(sid: string, idx: nat, sender: string)
    requires |Before(sid, '-')| < |sid|
    requires HistoryId(Str(sid), idx, sender) ==
      "history" + ['-'] + (Before(sid, '-') + ['-'] + (sid[|Before(sid, '-')| + 1..] + ("-" + NatToString(idx) + "-" + sender)))
    ensures |Split(HistoryId(Str(sid), idx, sender), '-')| >= 2
    ensures Split(HistoryId(Str(sid), idx, sender), '-')[1] == Before(sid, '-')
  {
    FieldOfCutId(HistoryId(Str(sid), idx, sender), Before(sid, '-'), sid[|Before(sid, '-')| + 1..] + ("-" + NatToString(idx) + "-" + sender));
  }

  /** As written, the field compared is only the part of the session id before its first `-`. */
  lemma AsWrittenField(sid: string, idx: nat, sender: string)
    requires '-' in sid
    ensures |Split(HistoryId(Str(sid), idx, sender), '-')| >= 2
    ensures Split(HistoryId(Str(sid), idx, sender), '-')[1] == Before(sid, '-') != sid
  {
    BeforeShorter(sid, '-');
    HistoryIdAtDash(sid, idx, sender);
    FieldOfHistoryId(sid, idx, sender);
  }

  lemma {:induction false} BeforeShorter(s: string, c: char)
    requires c in s
    ensures |Before(s, c)| < |s|
  {
    if s[0] != c {
      assert s == [s[0]] + s[1..];
      BeforeShorter(s[1..], c);
    }
  }

  lemma {:induction false} FlattenedMissedAsWritten(sid: string, es: seq<Entry>, n: nat)
    requires '-' in sid && n <= |es|
    ensures forall j :: 0 <= j < |Flattened(Str(sid), es, n)| ==> !NamesSessionAsWritten(Flattened(Str(sid), es, n)[j], Str(sid))
  {
    if n > 0 {
      FlattenedMissedAsWritten(sid, es, n - 1);
      AsWrittenField(sid, n - 1, "user");
      AsWrittenField(sid, n - 1, "bot");
    }
  }

  /**
   * As written, a session whose id contains `-` is never recognised as the
   * current view: after loading session `a-b`, deleting it leaves its messages
   * on screen, while the intended test recognises it.
   */
  lemma DashedSessionMissed(g: Group)
    requires g.sessionId.Str? && '-' in g.sessionId.s && g.messages != []
    ensures !IsCurrentSessionAsWritten(Flattened(g.sessionId, g.messages, |g.messages|), g.sessionId)
    ensures IsCurrentSession(Flattened(g.sessionId, g.messages, |g.messages|), g.sessionId)
  {
    FlattenedMissedAsWritten(g.sessionId.s, g.messages, |g.messages|);
    LoadedSessionRecognised(g, g.sessionId);
  }

  // ---- the screen ----

  /** `user?.language_preference || currentLanguage || 'en'` */
  function UserLanguage(user: JsValue, current: JsValue): (r: JsValue)
    ensures Truthy(r)
    ensures Truthy(Get(user, "language_preference")) ==> r == Get(user, "language_preference")
    ensures !Truthy(Get(user, "language_preference")) && Truthy(current) ==> r == current
    ensures !Truthy(Get(user, "language_preference")) && !Truthy(current) ==> r == Str("en")
  {
    Or(Or(Get(user, "language_preference"), current), Str("en"))
  }

  /** `response?.response || response?.message || 'No response received'` */
  function BotText(response: JsValue): (r: JsValue)
    ensures Truthy(r)
    ensures Truthy(Get(response, "response")) ==> r == Get(response, "response")
    ensures !Truthy(Get(response, "response")) && Truthy(Get(response, "message")) ==> r == Get(response, "message")
    ensures !Truthy(Get(response, "response")) && !Truthy(Get(response, "message")) ==> r == Str("No response received")
  {
    Or(Or(Get(response, "response"), Get(response, "message")), Str("No response received"))
  }

  class ChatView {
    var messages: seq<Message>
    var loading: bool
    var showHistory: bool
    var chatHistory: seq<Group>
    var loadingHistory: bool

    constructor()
      ensures messages == [] && !loading && !showHistory && chatHistory == [] && !loadingHistory
    {
      messages := [];
      loading := false;
      showHistory := false;
      chatHistory := [];
      loadingHistory := false;
    }

    /** `loadChatHistory`: `reply` is the answer to `GET /history/chat?limit=20`. */
    method LoadChatHistory(reply: CallOutcome)
      modifies this
      ensures !loadingHistory && messages == old(messages) && showHistory == old(showHistory)
      ensures reply.Answer? && HistoryList(reply.data).Some? ==>
        IsGrouping(HistoryList(reply.data).value, chatHistory) && Total(chatHistory) == |HistoryList(reply.data).value|
      ensures !(reply.Answer? && HistoryList(reply.data).Some?) ==> chatHistory == old(chatHistory)
    {
      loadingHistory := true;
      if reply.Answer? && HistoryList(reply.data).Some? {
        chatHistory := GroupHistory(HistoryList(reply.data).value);
      }
      loadingHistory := false;
    }

    /** `handleHistoryClick`: opening an empty sidebar loads the history. */
    method HistoryClick(reply: CallOutcome)
      modifies this
      ensures showHistory == !old(showHistory) && messages == old(messages)
      ensures old(showHistory) || old(chatHistory) != [] ==> chatHistory == old(chatHistory)
      ensures !old(showHistory) && old(chatHistory) == [] && reply.Answer? && HistoryList(reply.data).Some? ==>
        IsGrouping(HistoryList(reply.data).value, chatHistory)
      ensures !(reply.Answer? && HistoryList(reply.data).Some?) ==> chatHistory == old(chatHistory)
    {
      var wasShown := showHistory;
      showHistory := !showHistory;
      if !wasShown && |chatHistory| == 0 {
        LoadChatHistory(reply);
      }
    }

    /** `loadHistorySession`: the view shows the session's messages and the sidebar closes. */
    method LoadSession(session: Group)
      modifies this
      ensures messages == Flattened(session.sessionId, session.messages, |session.messages|)
      ensures !showHistory && chatHistory == old(chatHistory)
    {
      messages := FlattenSession(session);
      showHistory := false;
    }

    /**
     * `handleDeleteHistory`: `confirmed` is the dialog's answer, `deleted`
     * whether `DELETE /history/chat/:sessionId` succeeded. The current view is
     * cleared by the intended session test.
     */
    method DeleteHistory(sid: JsValue, confirmed: bool, deleted: bool)
      modifies this
      ensures !(confirmed && deleted) ==> messages == old(messages) && chatHistory == old(chatHistory)
      ensures confirmed && deleted ==>
        chatHistory == RemoveSession(old(chatHistory), sid) &&
        messages == (if IsCurrentSession(old(messages), sid) then [] else old(messages))
    {
      if !confirmed || !deleted {
        return;
      }
      chatHistory := RemoveSession(chatHistory, sid);
      if IsCurrentSession(messages, sid) {
        messages := [];
      }
    }

    /**
     * `handleSendMessage`: the user's message is appended first, then the
     * bot's if `sendQuery` succeeded. `now` and `later` are the two clock
     * readings.
     */
    method SendMessage(query: string, user: JsValue, current: JsValue, translation: CallOutcome, reply: CallOutcome,
                       now: int, later: int)
      modifies this
      ensures !loading && chatHistory == old(chatHistory)
      ensures var sent := ChatbotService.SendQuery(query, UserLanguage(user, current), Undefined, translation, reply).result;
        messages == old(messages) + [Message(Stamp(now), Str(query), "user", Num(now))] +
          (if sent.Success? then [Message(Stamp(later + 1), BotText(sent.value), "bot", Num(later))] else [])
    {
      messages := messages + [Message(Stamp(now), Str(query), "user", Num(now))];
      loading := true;
      var sent := ChatbotService.SendQuery(query, UserLanguage(user, current), Undefined, translation, reply).result;
      if sent.Success? {
        messages := messages + [Message(Stamp(later + 1), BotText(sent.value), "bot", Num(later))];
      }
      loading := false;
    }

    /** `handleClearChat` */
    method ClearChat()
      modifies this
      ensures messages == [] && chatHistory == old(chatHistory)
    {
      messages := [];
    }
  }
}
