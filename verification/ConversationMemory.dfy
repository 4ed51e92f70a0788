/** Conversation memory: the truncating buffer of `ai/history.go` and the store-backed memory
of `agent/memory.go`, which compacts older turns into a summary and archives them. */
module ConversationMemory {
  import opened Options

  datatype Message = Message(role: string, content: string)

  // ----- ai.History -----

  /** The newest `limit` messages; all of them when the limit is not positive. */
  function Newest(s: seq<Message>, limit: int): seq<Message> {
    if limit > 0 && |s| > limit then s[|s| - limit..] else s
  }

  /** The buffer is the end of what was added, as much of it as the limit allows. */
  lemma NewestIsTheEnd(s: seq<Message>, limit: int)
    ensures var r := Newest(s, limit);
            |r| == (if 0 < limit < |s| then limit else |s|) && s[|s| - |r|..] == r
  {
  }

  class History {
    var messages: seq<Message>
    const limit: int
    ghost var all: seq<Message> // everything added since the last reset

    /** The newest messages are retained, oldest first, however many were added. */
    ghost predicate Valid()
      reads this
    {
      messages == Newest(all, limit)
    }

    constructor (limit: int)
      ensures Valid() && all == [] && this.limit == limit
    {
      messages, all := [], [];
      this.limit := limit;
    }

    method Add(role: string, content: string)
      requires Valid()
      modifies this
      ensures Valid() && all == old(all) + [Message(role, content)]
    {
      NewestOnce(all, [Message(role, content)], limit);
      messages, all := messages + [Message(role, content)], all + [Message(role, content)];
      if limit > 0 && |messages| > limit {
        messages := messages[|messages| - limit..];
      }
    }

    method AddAll(msgs: seq<Message>)
      requires Valid()
      modifies this
      ensures Valid() && all == old(all) + msgs
    {
      for i := 0 to |msgs|
        invariant Valid() && all == old(all) + msgs[..i]
      {
        Add(msgs[i].role, msgs[i].content);
        assert msgs[..i + 1] == msgs[..i] + [msgs[i]];
      }
      assert msgs[..|msgs|] == msgs;
    }

    method Reset()
      modifies this
      ensures Valid() && all == []
    {
      messages, all := [], [];
    }
  }

  /** Truncating after every addition keeps the same messages as truncating once. */
  lemma NewestOnce(s: seq<Message>, t: seq<Message>, limit: int)
    ensures Newest(Newest(s, limit) + t, limit) == Newest(s + t, limit)
  {
    if limit > 0 && |s| > limit {
      assert s == s[..|s| - limit] + s[|s| - limit..];
    }
  }

  // ----- compaction, as a function -----

  /** A retained message, and whether compaction generated it. */
  datatype Entry = Entry(message: Message, generated: bool)

  datatype Memory = Memory(archive: seq<Entry>, active: seq<Entry>)

  datatype Compaction = Compaction(maxMessages: int, keepRecent: int, summarize: seq<Message> -> Message)

  function Messages(s: seq<Entry>): seq<Message> {
    seq(|s|, i requires 0 <= i < |s| => s[i].message)
  }

  /** The messages that were really added. */
  function Spoken(s: seq<Entry>): seq<Message> {
    if s == [] then []
    else (if s[0].generated then [] else [s[0].message]) + Spoken(s[1..])
  }

  /** The conversation a memory holds: what was archived, then what is active. */
  function Conversation(m: Memory): seq<Message> {
    Spoken(m.archive) + Spoken(m.active)
  }

  function Keep(c: Compaction): (k: int)
    ensures 1 <= k && (c.maxMessages >= 2 ==> k < c.maxMessages)
  {
    var keep := if c.keepRecent <= 0 || c.keepRecent >= c.maxMessages then c.maxMessages - 1 else c.keepRecent;
    if keep < 1 then 1 else keep
  }

  function SummaryOf(c: Compaction, older: seq<Message>): Message {
    var s := c.summarize(older);
    if s.role == "" then s.(role := "system") else s
  }

  function Compacted(c: Compaction, m: Memory): Memory {
    if c.maxMessages <= 0 || |m.active| <= c.maxMessages then m
    else
      var cut := |m.active| - Keep(c);
      var summary := Entry(SummaryOf(c, Messages(m.active[..cut])), true);
      Memory(m.archive + m.active[..cut], [summary] + m.active[cut..])
  }

  function Added(c: Compaction, m: Memory, msg: Message): Memory {
    Compacted(c, m.(active := m.active + [Entry(msg, false)]))
  }

  function AddedAll(c: Compaction, m: Memory, msgs: seq<Message>): Memory {
    if msgs == [] then m else Added(c, AddedAll(c, m, msgs[..|msgs| - 1]), msgs[|msgs| - 1])
  }

  /** Only the first active message can be generated, and the active context is bounded. */
  ghost predicate Tidy(c: Compaction, m: Memory) {
    && (forall i :: 0 < i < |m.active| ==> !m.active[i].generated)
    && (c.maxMessages >= 1 ==> |m.active| <= if c.maxMessages > 2 then c.maxMessages else 2)
  }

  lemma Joined(a: seq<Message>, b: seq<Message>, c: seq<Message>)
    ensures a + (b + c) == a + b + c
  {
  }

  lemma {:induction false} SpokenConcat(s: seq<Entry>, t: seq<Entry>)
    ensures Spoken(s + t) == Spoken(s) + Spoken(t)
  {
    if s == [] {
      assert s + t == t;
    } else {
      SpokenConcat(s[1..], t);
      assert (s + t)[1..] == s[1..] + t;
      Joined(if s[0].generated then [] else [s[0].message], Spoken(s[1..]), Spoken(t));
    }
  }

  /** Compaction moves messages and loses none; only summaries come and go. */
  lemma CompactionConserves(c: Compaction, m: Memory)
    ensures Conversation(Compacted(c, m)) == Conversation(m)
  {
    if c.maxMessages > 0 && |m.active| > c.maxMessages {
      var cut := |m.active| - Keep(c);
      var summary := Entry(SummaryOf(c, Messages(m.active[..cut])), true);
      SpokenConcat(m.archive, m.active[..cut]);
      SpokenConcat([summary], m.active[cut..]);
      SpokenConcat(m.active[..cut], m.active[cut..]);
      assert Spoken([summary]) == [];
      assert m.active == m.active[..cut] + m.active[cut..];
    }
  }

  /** A compaction leaves exactly the newest KeepRecent messages after the summary, all but one of
      MaxMessages if that is out of range, and archives the older ones, of which the summary is;
      within the limit it changes nothing. */
  lemma CompactionKeepsNewest(c: Compaction, m: Memory)
    ensures c.maxMessages <= 0 || |m.active| <= c.maxMessages ==> Compacted(c, m) == m
    ensures 0 < c.maxMessages < |m.active| ==>
              var keep := if 0 < c.keepRecent < c.maxMessages then c.keepRecent
                          else if c.maxMessages > 2 then c.maxMessages - 1 else 1;
              var cut, r := |m.active| - keep, Compacted(c, m);
              && 0 < cut && r.archive == m.archive + m.active[..cut]
              && |r.active| == keep + 1 && r.active[1..] == m.active[cut..]
              && r.active[0].generated
              && var summary := c.summarize(Messages(m.active[..cut]));
              && r.active[0].message.content == summary.content
              && r.active[0].message.role == if summary.role == "" then "system" else summary.role
  {
  }

  lemma CompactionTidies(c: Compaction, m: Memory)
    requires forall i :: 0 < i < |m.active| ==> !m.active[i].generated
    ensures Tidy(c, Compacted(c, m))
  {
  }

  lemma AddConserves(c: Compaction, m: Memory, msg: Message)
    requires Tidy(c, m)
    ensures Conversation(Added(c, m, msg)) == Conversation(m) + [msg]
    ensures Tidy(c, Added(c, m, msg))
  {
    var n := m.(active := m.active + [Entry(msg, false)]);
    SpokenConcat(m.active, [Entry(msg, false)]);
    assert Spoken([Entry(msg, false)]) == [msg];
    assert Conversation(n) == Conversation(m) + [msg];
    CompactionConserves(c, n);
    CompactionTidies(c, n);
  }

  /** After any sequence of additions the memory holds exactly what was added, in order; only
      active message 0 can be a summary; the active context is bounded. */
  lemma {:induction false} ConversationConserved(c: Compaction, m: Memory, msgs: seq<Message>)
    requires Tidy(c, m)
    ensures Conversation(AddedAll(c, m, msgs)) == Conversation(m) + msgs
    ensures Tidy(c, AddedAll(c, m, msgs))
  {
    if msgs != [] {
      var n := |msgs| - 1;
      ConversationConserved(c, m, msgs[..n]);
      AddConserves(c, AddedAll(c, m, msgs[..n]), msgs[n]);
      assert msgs == msgs[..n] + [msgs[n]];
    }
  }

  /** The archive only grows: what was archived once is never rewritten. */
  lemma {:induction false} ArchiveGrows(c: Compaction, m: Memory, msgs: seq<Message>)
    ensures m.archive <= AddedAll(c, m, msgs).archive
  {
    if msgs != [] {
      ArchiveGrows(c, m, msgs[..|msgs| - 1]);
    }
  }

  // ----- the store-backed memory -----

  datatype MemoryState = MemoryState(messages: seq<Message>, archive: seq<Message>, summary: string)

  /** What a stored record stands for. */
  ghost predicate Records(s: MemoryState, m: Memory) {
    s.messages == Messages(m.active) && s.archive == Messages(m.archive)
  }

  class StoreMemory {
    const hist: History
    const compaction: Compaction
    var archive: seq<Message>
    var summary: string
    var stored: Option<MemoryState>
    ghost var view: Memory
    ghost var storedView: Memory

    ghost predicate Valid()
      reads this, hist
    {
      && hist.limit == 0 && hist.Valid()
      && hist.messages == Messages(view.active) && archive == Messages(view.archive)
      && Tidy(compaction, view)
      && (stored.Some? ==> Records(stored.value, storedView) && Unmarked(storedView))
    }

    ghost predicate Unmarked(m: Memory) {
      forall i :: 0 < i < |m.active| ==> !m.active[i].generated
    }

    /** Opens a compacting memory on what the store holds, if anything. */
    constructor (c: Compaction, record: Option<MemoryState>, ghost v: Memory)
      requires record.Some? ==> Records(record.value, v)
      requires record.None? ==> v == Memory([], [])
      requires forall i :: 0 < i < |v.active| ==> !v.active[i].generated
      ensures Valid() && fresh(hist)
      ensures compaction.maxMessages == c.maxMessages && compaction.summarize == c.summarize
      ensures c.keepRecent > 0 ==> compaction.keepRecent == c.keepRecent
      ensures c.keepRecent <= 0 ==>
                compaction.keepRecent == if c.maxMessages >= 2 then c.maxMessages / 2 else 1
      ensures view == Compacted(compaction, v) && Conversation(view) == Conversation(v)
    {
      var keep := c.keepRecent;
      if keep <= 0 {
        keep := c.maxMessages / 2;
      }
      if keep < 1 {
        keep := 1;
      }
      compaction := c.(keepRecent := keep);
      hist := new History(0);
      archive, summary, stored := [], "", record;
      view, storedView := Memory([], []), v;
      new;
      Load();
      view := v;
      CompactionConserves(compaction, view);
      Compact();
    }

    method Load()
      requires hist.limit == 0 && hist.Valid() && hist.all == [] && archive == []
      modifies this`archive, this`summary, hist
      ensures hist.Valid()
      ensures stored.None? ==> hist.messages == [] && archive == []
      ensures stored.Some? ==> hist.messages == stored.value.messages && archive == stored.value.archive
    {
      if stored.None? {
        return;
      }
      var state := stored.value;
      archive, summary := state.archive, state.summary;
      hist.AddAll(state.messages);
      if summary == "" {
        summary := CurrentSummary(state.messages);
      }
    }

    /** Collapses older turns into a summary once the active context is too long. */
    method Compact()
      requires hist.limit == 0 && hist.Valid()
      requires hist.messages == Messages(view.active) && archive == Messages(view.archive)
      requires Unmarked(view)
      requires stored.Some? ==> Records(stored.value, storedView) && Unmarked(storedView)
      modifies this`archive, this`summary, this`view, hist
      ensures Valid() && view == Compacted(compaction, old(view))
      ensures view != old(view) ==> summary == hist.messages[0].content
    {
      CompactionTidies(compaction, view);
      if compaction.maxMessages <= 0 {
        return;
      }
      var msgs := hist.messages;
      if |msgs| <= compaction.maxMessages {
        return;
      }
      var keep := compaction.keepRecent;
      if keep <= 0 || keep >= compaction.maxMessages {
        keep := compaction.maxMessages - 1;
      }
      if keep < 1 {
        keep := 1;
      }
      var cut := |msgs| - keep;
      CompactedMessages(compaction, view);
      view := Compacted(compaction, view);
      archive := archive + msgs[..cut];
      var s := compaction.summarize(msgs[..cut]);
      if s.role == "" {
        s := s.(role := "system");
      }
      summary := s.content;
      hist.Reset();
      hist.Add(s.role, s.content);
      hist.AddAll(msgs[cut..]);
    }

    method Add(role: string, content: string)
      requires Valid()
      modifies this, hist
      ensures Valid() && view == Added(compaction, old(view), Message(role, content))
      ensures Conversation(view) == old(Conversation(view)) + [Message(role, content)]
    {
      hist.Add(role, content);
      ghost var one := Entry(Message(role, content), false);
      assert Messages(view.active + [one]) == Messages(view.active) + [Message(role, content)];
      AddConserves(compaction, view, Message(role, content));
      view := view.(active := view.active + [one]);
      Compact();
      Save();
    }

    method Clear()
      requires Valid()
      modifies this, hist
      ensures Valid() && view == Memory([], []) && summary == ""
    {
      hist.Reset();
      archive, summary, view := [], "", Memory([], []);
      Save();
    }

    /** Writes the memory to the store; a failed write is ignored and leaves the old record. */
    method Save()
      requires Valid()
      modifies this`stored, this`storedView
      ensures Valid()
      ensures (stored == Some(MemoryState(hist.messages, archive, summary)) && storedView == view)
           || (stored == old(stored) && storedView == old(storedView))
    {
      var written: bool := *;
      if written {
        stored, storedView := Some(MemoryState(hist.messages, archive, summary)), view;
      }
    }

    /** Opening a new memory on the stored record continues the stored conversation. */
    method Reopen(c: Compaction) returns (next: StoreMemory)
      requires Valid() && stored.Some?
      ensures fresh(next) && next.Valid() && Conversation(next.view) == Conversation(storedView)
    {
      next := new StoreMemory(c, stored, storedView);
    }
  }

  /** The first system message that is a default summary. */
  function CurrentSummary(msgs: seq<Message>): string {
    if msgs == [] then ""
    else if msgs[0].role == "system" && "Conversation memory summary:" <= msgs[0].content then msgs[0].content
    else CurrentSummary(msgs[1..])
  }

  lemma CompactedMessages(c: Compaction, m: Memory)
    requires c.maxMessages > 0 && |m.active| > c.maxMessages
    ensures var msgs, cut := Messages(m.active), |m.active| - Keep(c);
            && Messages(Compacted(c, m).archive) == Messages(m.archive) + msgs[..cut]
            && Messages(Compacted(c, m).active) == [SummaryOf(c, msgs[..cut])] + msgs[cut..]
  {
    var cut := |m.active| - Keep(c);
    assert Messages(m.active)[..cut] == Messages(m.active[..cut]);
  }
}
