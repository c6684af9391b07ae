/** Compacting a session's history: where the old part is cut off, and what happens to the message table. */
module Compaction {
  datatype Message = Message(id: nat, session: nat, agent: string, role: string, content: string, tokens: nat,
                             archived: bool)

  // ----- The message table

  /** Rows are stored in order of their IDs. */
  ghost predicate TableOk(table: seq<Message>) {
    forall i, j :: 0 <= i < j < |table| ==> table[i].id < table[j].id
  }

  predicate Active(m: Message, session: nat, agent: string) {
    m.session == session && !m.archived && (agent == "" || m.agent == agent)
  }

  function ActiveRows(table: seq<Message>, session: nat, agent: string): seq<Message> {
    if table == [] then []
    else
      var m := table[|table| - 1];
      ActiveRows(table[..|table| - 1], session, agent) + (if Active(m, session, agent) then [m] else [])
  }

  /** The oldest active messages, at most `limit` (out of range means a hundred). */
  function ListHistory(table: seq<Message>, session: nat, agent: string, limit: int): seq<Message> {
    var rows := ActiveRows(table, session, agent);
    var n := if limit <= 0 || limit > 1000 then 100 else limit;
    if |rows| <= n then rows else rows[..n]
  }

  function Archive(table: seq<Message>, session: nat, beforeId: nat): seq<Message> {
    if table == [] then []
    else
      var m := table[|table| - 1];
      Archive(table[..|table| - 1], session, beforeId)
      + [if m.session == session && m.id <= beforeId then m.(archived := true) else m]
  }

  function NextId(table: seq<Message>): nat {
    if table == [] then 1 else table[|table| - 1].id + 1
  }

  function Add(table: seq<Message>, session: nat, agent: string, role: string, content: string,
               tokens: nat): seq<Message> {
    table + [Message(NextId(table), session, if agent == "" then "default" else agent, role, content, tokens, false)]
  }

  // ----- Where to cut

  function Tokens(items: seq<Message>): nat {
    if items == [] then 0 else Tokens(items[..|items| - 1]) + items[|items| - 1].tokens
  }

  /** Keeping the items from `split` on respects both rules: enough messages, and not too many tokens beyond them. */
  ghost predicate Keeps(items: seq<Message>, keepRecent: nat, window: int, split: int) {
    && 1 <= split <= |items| - keepRecent
    && (split < |items| - keepRecent ==> Tokens(items[split..]) <= window)
  }

  /** The split keeps as many messages as the rules allow while archiving at least one. */
  ghost predicate IsSplit(items: seq<Message>, keepRecent: nat, window: int, split: int) {
    && Keeps(items, keepRecent, window, split)
    && forall other :: Keeps(items, keepRecent, window, other) ==> split <= other
  }

  lemma {:induction false} TokensConcat(a: seq<Message>, b: seq<Message>)
    ensures Tokens(a + b) == Tokens(a) + Tokens(b)
  {
    if b == [] {
      assert a + b == a;
    } else {
      var front := b[..|b| - 1];
      assert (a + b)[..|a + b| - 1] == a + front;
      TokensConcat(a, front);
    }
  }

  lemma LongerSuffix(items: seq<Message>, i: nat, j: nat)
    requires i <= j <= |items|
    ensures Tokens(items[i..]) >= Tokens(items[j..])
  {
    assert items[i..] == items[i..j] + items[j..];
    TokensConcat(items[i..j], items[j..]);
  }

  lemma OneMoreItem(items: seq<Message>, i: nat)
    requires i < |items|
    ensures Tokens(items[i..]) == items[i].tokens + Tokens(items[i + 1..])
  {
    assert items[i..] == [items[i]] + items[i + 1..];
    TokensConcat([items[i]], items[i + 1..]);
    assert [items[i]][..0] == [];
  }

  /** The backward scan has come to item `i`, exclusively: everything after it may be kept. */
  ghost predicate Scanned(items: seq<Message>, keepRecent: nat, window: int, i: int, recent: int, split: int) {
    && -1 <= i < |items| && recent == Tokens(items[i + 1..])
    && split == (if |items| - (i + 1) <= keepRecent then |items| else i + 1)
    && (|items| - (i + 1) > keepRecent ==> recent <= window)
  }

  lemma ScanStarts(items: seq<Message>, keepRecent: nat, window: int)
    requires items != []
    ensures Scanned(items, keepRecent, window, |items| - 1, 0, |items|)
  {
    assert items[|items|..] == [];
  }

  /** One more item either may be kept, too, or ends the scan. */
  lemma ScanNext(items: seq<Message>, keepRecent: nat, window: int, i: nat, recent: int, split: int)
    requires 0 < keepRecent && Scanned(items, keepRecent, window, i, recent, split)
    ensures var recent', counted := recent + items[i].tokens, |items| - i > keepRecent;
            if counted && recent' > window then IsSplit(items, keepRecent, window, i + 1)
            else Scanned(items, keepRecent, window, i - 1, recent', if counted then i else split)
  {
    OneMoreItem(items, i);
    if |items| - i > keepRecent && recent + items[i].tokens > window {
      NoEarlierSplit(items, keepRecent, window, i);
    }
  }

  lemma ScanEnds(items: seq<Message>, keepRecent: nat, window: int, recent: int, split: int)
    requires 0 < keepRecent < |items| && Scanned(items, keepRecent, window, -1, recent, split)
    ensures split == 0 && IsSplit(items, keepRecent, window, 1)
  {
    assert items[0..] == items;
    LongerSuffix(items, 0, 1);
  }

  /** The backward scan; it is only called with more items than must be kept. */
  method FindSplit(items: seq<Message>, keepRecent: nat, window: int) returns (split: int)
    requires 0 < keepRecent < |items|
    ensures IsSplit(items, keepRecent, window, split)
  {
    var recent := 0;
    split := |items|;
    var i := |items| - 1;
    ScanStarts(items, keepRecent, window);
    while i >= 0
      invariant Scanned(items, keepRecent, window, i, recent, split)
    {
      ScanNext(items, keepRecent, window, i, recent, split);
      recent := recent + items[i].tokens;
      var count := |items| - i;
      if count > keepRecent {
        if recent > window {
          return i + 1;
        }
        split := i;
      }
      i := i - 1;
    }
    ScanEnds(items, keepRecent, window, recent, split);
    if split <= 0 {
      split := 1;
    }
  }

  /** If too much would be kept from `i` on, so would be from anywhere before. */
  lemma NoEarlierSplit(items: seq<Message>, keepRecent: nat, window: int, i: nat)
    requires i < |items| - keepRecent && Tokens(items[i..]) > window
    ensures forall other :: Keeps(items, keepRecent, window, other) ==> i + 1 <= other
  {
    forall other | Keeps(items, keepRecent, window, other)
      ensures i + 1 <= other
    {
      if other <= i {
        LongerSuffix(items, other, i);
      }
    }
  }

  // ----- Compacting

  const RESERVED_TOKENS: int := 10_000

  datatype Settings = Settings(contextLimit: int, ratio: real, keepRecent: int)

  /** The constructor replaces a ratio or count that is not positive. */
  function WithDefaults(cfg: Settings): (r: Settings)
    ensures r.keepRecent > 0 && r.ratio > 0.0
  {
    cfg.(ratio := if cfg.ratio <= 0.0 then 0.75 else cfg.ratio,
         keepRecent := if cfg.keepRecent <= 0 then 10 else cfg.keepRecent)
  }

  function Available(cfg: Settings): (n: int)
    ensures n >= 1000
  {
    if cfg.contextLimit - RESERVED_TOKENS < 1000 then 1000 else cfg.contextLimit - RESERVED_TOKENS
  }

  function Window(cfg: Settings): int {
    (Available(cfg) as real * 0.6).Floor
  }

  /** Compaction goes ahead: the history is over the threshold and longer than what must be kept. */
  predicate Proceeds(cfg: Settings, items: seq<Message>) {
    items != [] && Tokens(items) as real >= Available(cfg) as real * cfg.ratio && cfg.keepRecent < |items|
  }

  /** The window is six tenths of what is available, rounded down. */
  lemma WindowIsSixTenths(cfg: Settings)
    ensures 10 * Window(cfg) <= 6 * Available(cfg) < 10 * (Window(cfg) + 1)
  {
    var exact := Available(cfg) as real * 0.6;
    assert exact.Floor as real <= exact < exact.Floor as real + 1.0;
  }

  /**
   * With the usual settings and a model of 210000 tokens, eleven messages are compacted from 150000 tokens
   * on and not below; with one of 5000 tokens, from 750 on.
   */
  lemma UsualThreshold(items: seq<Message>)
    requires |items| == 11
    ensures Proceeds(WithDefaults(Settings(210_000, 0.0, 0)), items) <==> Tokens(items) >= 150_000
    ensures Proceeds(WithDefaults(Settings(5_000, 0.0, 0)), items) <==> Tokens(items) >= 750
    ensures !Proceeds(WithDefaults(Settings(5_000, 0.0, 0)), items[1..])
  {
  }

  /** The table after the first `split` items are archived and the summary is added. */
  function Compacted(table: seq<Message>, session: nat, agent: string, items: seq<Message>, split: int, summary: string,
                     cost: nat): seq<Message>
    requires 1 <= split <= |items|
  {
    Add(Archive(table, session, items[split - 1].id), session, agent, "system", summary, cost)
  }

  /** The row the summary is stored in. */
  function SummaryRow(table: seq<Message>, session: nat, agent: string, summary: string, cost: nat): Message {
    Message(NextId(table), session, if agent == "" then "default" else agent, "system", summary, cost, false)
  }

  class Compactor {
    const cfg: Settings
    var table: seq<Message>

    constructor (settings: Settings, rows: seq<Message>)
      ensures cfg == WithDefaults(settings) && table == rows
    {
      cfg := WithDefaults(settings);
      table := rows;
    }

    method SumTokens(items: seq<Message>) returns (total: nat)
      ensures total == Tokens(items)
    {
      total := 0;
      for i := 0 to |items|
        invariant total == Tokens(items[..i])
      {
        assert items[..i + 1][..i] == items[..i];
        total := total + items[i].tokens;
      }
      assert items[..|items|] == items;
    }

    method ShouldCompact(items: seq<Message>) returns (proceeds: bool)
      ensures proceeds == Proceeds(cfg, items)
    {
      if |items| == 0 {
        return false;
      }
      var total := SumTokens(items);
      var available := cfg.contextLimit - RESERVED_TOKENS;
      if available < 1000 {
        available := 1000;
      }
      if total as real < available as real * cfg.ratio {
        return false;
      }
      return cfg.keepRecent < |items|;
    }

    /** `summary` and `cost` are what summarising gives, or the fallback text if it fails. */
    method CompactIfNeeded(session: nat, agent: string, summary: string, cost: nat)
      returns (history: seq<Message>, ghost split: int)
      requires cfg.keepRecent > 0
      modifies this
      ensures var items := ListHistory(old(table), session, agent, 1000);
              if Proceeds(cfg, items)
              then IsSplit(items, cfg.keepRecent, Window(cfg), split)
                   && table == Compacted(old(table), session, agent, items, split, summary, cost)
              else table == old(table)
      ensures history == ListHistory(table, session, agent, 1000)
    {
      split := 0;
      var items := ListHistory(table, session, agent, 1000);
      var proceeds := ShouldCompact(items);
      if !proceeds {
        return items, split;
      }
      var cut := FindSplit(items, cfg.keepRecent, (Available(cfg) as real * 0.6).Floor);
      split := cut;
      if cut >= |items| {
        return items, split;
      }
      table := Archive(table, session, items[cut - 1].id);
      table := Add(table, session, agent, "system", summary, cost);
      history := ListHistory(table, session, agent, 1000);
    }
  }

  // ----- What compaction does to the history

  function AfterId(rows: seq<Message>, id: nat): seq<Message> {
    if rows == [] then []
    else
      var m := rows[|rows| - 1];
      AfterId(rows[..|rows| - 1], id) + (if m.id > id then [m] else [])
  }

  lemma AfterIdAppend(rows: seq<Message>, m: Message, id: nat)
    ensures AfterId(rows + [m], id) == AfterId(rows, id) + (if m.id > id then [m] else [])
  {
    assert (rows + [m])[..|rows|] == rows;
  }

  lemma ActiveAppend(table: seq<Message>, m: Message, session: nat, agent: string)
    ensures ActiveRows(table + [m], session, agent)
         == ActiveRows(table, session, agent) + (if Active(m, session, agent) then [m] else [])
  {
    assert (table + [m])[..|table|] == table;
  }

  /** Archiving takes exactly the session's messages up to that ID out of every agent's history. */
  lemma {:induction false} ArchivedHistory(table: seq<Message>, session: nat, agent: string, id: nat)
    ensures ActiveRows(Archive(table, session, id), session, agent) == AfterId(ActiveRows(table, session, agent), id)
  {
    if table != [] {
      var front, m := table[..|table| - 1], table[|table| - 1];
      ArchivedHistory(front, session, agent, id);
      ActiveAppend(Archive(front, session, id), if m.session == session && m.id <= id then m.(archived := true) else m,
                   session, agent);
      var rows := ActiveRows(front, session, agent);
      if Active(m, session, agent) {
        AfterIdAppend(rows, m, id);
      } else {
        assert rows + [] == rows && AfterId(rows, id) + [] == AfterId(rows, id);
      }
    }
  }

  lemma {:induction false} HistoryInOrder(table: seq<Message>, session: nat, agent: string)
    requires TableOk(table)
    ensures TableOk(ActiveRows(table, session, agent))
    ensures forall m :: m in ActiveRows(table, session, agent) ==> m in table
  {
    if table != [] {
      var front, last := table[..|table| - 1], table[|table| - 1];
      HistoryInOrder(front, session, agent);
      var rows := ActiveRows(front, session, agent);
      forall i | 0 <= i < |rows|
        ensures rows[i].id < last.id
      {
        assert rows[i] in rows;
        var k :| 0 <= k < |front| && front[k] == rows[i];
        assert table[k].id < last.id;
      }
    }
  }

  /** In a history in ID order, what follows its `k`-th message is what comes after that message's ID. */
  lemma {:induction false} SuffixById(rows: seq<Message>, k: nat, id: nat)
    requires TableOk(rows) && k <= |rows|
    requires (forall i :: 0 <= i < k ==> rows[i].id <= id) && (forall i :: k <= i < |rows| ==> rows[i].id > id)
    ensures AfterId(rows, id) == rows[k..]
  {
    if rows != [] {
      var front := rows[..|rows| - 1];
      if k == |rows| {
        SuffixById(front, |front|, id);
      } else {
        SuffixById(front, k, id);
        assert rows[k..] == front[k..] + [rows[|rows| - 1]];
      }
    }
  }

  /**
   * After compaction the active history of the agent is what followed the cut, unchanged and in order,
   * and then the summary; at least `keepRecent` of its messages are kept and at least one is archived.
   */
  lemma HistoryAfterCompaction(table: seq<Message>, session: nat, agent: string, cfg: Settings, split: int,
                               summary: string, cost: nat)
    requires TableOk(table) && cfg.keepRecent > 0
    requires var items := ListHistory(table, session, agent, 1000);
             Proceeds(cfg, items) && IsSplit(items, cfg.keepRecent, Window(cfg), split)
    ensures var items, rows := ListHistory(table, session, agent, 1000), ActiveRows(table, session, agent);
            var after := Compacted(table, session, agent, items, split, summary, cost);
            && 1 <= split <= |rows| - cfg.keepRecent
            && ActiveRows(after, session, agent) == rows[split..] + [SummaryRow(table, session, agent, summary, cost)]
  {
    var items, rows := ListHistory(table, session, agent, 1000), ActiveRows(table, session, agent);
    var id := items[split - 1].id;
    assert items[split - 1] == rows[split - 1];
    ArchivedHistory(table, session, agent, id);
    HistoryInOrder(table, session, agent);
    SuffixById(rows, split, id);
    ArchiveKeepsRows(table, session, id);
    var archived := Archive(table, session, id);
    assert NextId(archived) == NextId(table);
    ActiveAppend(archived, SummaryRow(table, session, agent, summary, cost), session, agent);
  }

  /** Rows stay in the order of their IDs. */
  lemma CompactedTableOk(table: seq<Message>, session: nat, agent: string, items: seq<Message>, split: int,
                         summary: string, cost: nat)
    requires TableOk(table) && 1 <= split <= |items|
    ensures TableOk(Compacted(table, session, agent, items, split, summary, cost))
  {
    ArchiveKeepsRows(table, session, items[split - 1].id);
  }

  /** The messages a model call gets from a list of so many. */
  function Capped(rows: seq<Message>): seq<Message> {
    if |rows| <= 1000 then rows else rows[..1000]
  }

  predicate OverThreshold(cfg: Settings, tokens: nat) {
    tokens as real >= Available(cfg) as real * cfg.ratio
  }

  /**
   * What compaction returns is the kept messages and then the summary, cut to a thousand from the old end:
   * the summary is there, as the last message, exactly when fewer than a thousand messages are kept.
   * Asked again at once, compaction goes ahead exactly when what it returned is still over the threshold.
   */
  lemma ReturnedHistory(table: seq<Message>, session: nat, agent: string, cfg: Settings, split: int, summary: string,
                        cost: nat)
    requires TableOk(table) && cfg.keepRecent > 0
    requires var items := ListHistory(table, session, agent, 1000);
             Proceeds(cfg, items) && IsSplit(items, cfg.keepRecent, Window(cfg), split)
    ensures var items, rows := ListHistory(table, session, agent, 1000), ActiveRows(table, session, agent);
            var after := Compacted(table, session, agent, items, split, summary, cost);
            var history := ListHistory(after, session, agent, 1000);
            var row := SummaryRow(table, session, agent, summary, cost);
            && 1 <= split <= |rows|
            && history == Capped(rows[split..] + [row])
            && (row in history <==> |rows| - split < 1000)
            && (|rows| - split < 1000 ==> Tokens(history) == Tokens(rows[split..]) + cost)
            && (Proceeds(cfg, history) <==> OverThreshold(cfg, Tokens(history)))
  {
    var rows := ActiveRows(table, session, agent);
    HistoryAfterCompaction(table, session, agent, cfg, split, summary, cost);
    var kept, row := rows[split..], SummaryRow(table, session, agent, summary, cost);
    TokensConcat(kept, [row]);
    assert [row][..0] == [];
    SummaryIsNew(table, session, agent, row);
    var history := Capped(kept + [row]);
    if |kept| < 1000 {
      assert history[|kept|] == row;
    } else {
      assert history == kept[..1000];
      assert forall i :: 0 <= i < |history| ==> history[i] == rows[split + i];
    }
  }

  lemma SummaryIsNew(table: seq<Message>, session: nat, agent: string, row: Message)
    requires TableOk(table) && row.id == NextId(table)
    ensures row !in ActiveRows(table, session, agent)
  {
    HistoryInOrder(table, session, agent);
    assert forall k :: 0 <= k < |table| ==> table[k].id <= table[|table| - 1].id;
  }

  /** The history that compaction returns. */
  function Returned(table: seq<Message>, session: nat, agent: string, split: int, summary: string,
                    cost: nat): seq<Message>
    requires 1 <= split <= |ListHistory(table, session, agent, 1000)|
  {
    var items := ListHistory(table, session, agent, 1000);
    ListHistory(Compacted(table, session, agent, items, split, summary, cost), session, agent, 1000)
  }

  /** For a history of up to a thousand messages, one compaction is not enough exactly when this is too much. */
  lemma StillOverExactlyWhen(table: seq<Message>, session: nat, agent: string, cfg: Settings, split: int,
                             summary: string, cost: nat)
    requires TableOk(table) && cfg.keepRecent > 0 && |ActiveRows(table, session, agent)| <= 1000
    requires var items := ListHistory(table, session, agent, 1000);
             Proceeds(cfg, items) && IsSplit(items, cfg.keepRecent, Window(cfg), split)
    ensures Proceeds(cfg, Returned(table, session, agent, split, summary, cost)) <==>
            OverThreshold(cfg, Tokens(ListHistory(table, session, agent, 1000)[split..]) + cost)
  {
    var items, rows := ListHistory(table, session, agent, 1000), ActiveRows(table, session, agent);
    assert items == rows;
    ReturnedHistory(table, session, agent, cfg, split, summary, cost);
    var history := Returned(table, session, agent, split, summary, cost);
    assert Tokens(history) == Tokens(items[split..]) + cost;
    assert Proceeds(cfg, history) <==> OverThreshold(cfg, Tokens(history));
  }

  /**
   * So one compaction is enough whenever the messages that must be kept fit the window and the summary fits
   * between the window and the threshold.
   */
  lemma OneCompactionIsEnough(table: seq<Message>, session: nat, agent: string, cfg: Settings, split: int,
                              summary: string, cost: nat)
    requires TableOk(table) && cfg.keepRecent > 0 && |ActiveRows(table, session, agent)| <= 1000
    requires var items := ListHistory(table, session, agent, 1000);
             && Proceeds(cfg, items) && IsSplit(items, cfg.keepRecent, Window(cfg), split)
             && Tokens(items[|items| - cfg.keepRecent..]) <= Window(cfg)
    requires LeavesRoom(cfg, cost)
    ensures !Proceeds(cfg, Returned(table, session, agent, split, summary, cost))
  {
    var items := ListHistory(table, session, agent, 1000);
    KeptFitsOrIsMinimal(items, cfg.keepRecent, Window(cfg), split);
    var kept := Tokens(items[split..]);
    assert kept <= Window(cfg);
    RoomIsEnough(cfg, kept, cost);
    StillOverExactlyWhen(table, session, agent, cfg, split, summary, cost);
  }

  /** A summary of this size fits between the window and the threshold. */
  predicate LeavesRoom(cfg: Settings, cost: nat) {
    cost as real < Available(cfg) as real * (cfg.ratio - 0.6)
  }

  lemma RoomIsEnough(cfg: Settings, kept: nat, cost: nat)
    requires kept <= Window(cfg) && LeavesRoom(cfg, cost)
    ensures !OverThreshold(cfg, kept + cost)
  {
    var available := Available(cfg) as real;
    assert Window(cfg) as real <= available * 0.6;
    assert available * (cfg.ratio - 0.6) == available * cfg.ratio - available * 0.6;
  }

  /** No row is lost or altered: archiving only marks the session's rows up to the cut. */
  lemma {:induction false} ArchiveKeepsRows(table: seq<Message>, session: nat, id: nat)
    ensures |Archive(table, session, id)| == |table|
    ensures forall i :: 0 <= i < |table| ==>
              Archive(table, session, id)[i] ==
              if table[i].session == session && table[i].id <= id then table[i].(archived := true) else table[i]
  {
    if table != [] {
      ArchiveKeepsRows(table[..|table| - 1], session, id);
    }
  }

  /** The kept part fits the window, or is exactly the messages that must be kept. */
  lemma KeptFitsOrIsMinimal(items: seq<Message>, keepRecent: nat, window: int, split: int)
    requires IsSplit(items, keepRecent, window, split)
    ensures Tokens(items[split..]) <= window || |items| - split == keepRecent
    ensures split > 1 ==> Tokens(items[split - 1..]) > window
  {
    if split > 1 && Tokens(items[split - 1..]) <= window {
      assert Keeps(items, keepRecent, window, split - 1);
    }
  }

  // ----- Other agents in the session

  lemma {:induction false} NothingDropped(rows: seq<Message>, id: nat)
    ensures |AfterId(rows, id)| <= |rows|
    ensures AfterId(rows, id) == rows <==> forall i :: 0 <= i < |rows| ==> rows[i].id > id
  {
    if rows != [] {
      var front := rows[..|rows| - 1];
      NothingDropped(front, id);
      if rows[|rows| - 1].id > id && AfterId(rows, id) == rows {
        assert AfterId(rows, id)[..|rows| - 1] == AfterId(front, id);
      }
    }
  }

  lemma OtherAgentsHistory(table: seq<Message>, session: nat, agent: string, other: string, items: seq<Message>,
                           split: int, summary: string, cost: nat)
    requires agent != "" && other != "" && other != agent && 1 <= split <= |items|
    ensures ActiveRows(Compacted(table, session, agent, items, split, summary, cost), session, other) ==
            AfterId(ActiveRows(table, session, other), items[split - 1].id)
  {
    var id := items[split - 1].id;
    var archived := Archive(table, session, id);
    ArchivedHistory(table, session, other, id);
    var after := Compacted(table, session, agent, items, split, summary, cost);
    ActiveAppend(archived, after[|archived|], session, other);
  }

  /**
   * Archiving is by session, so compacting one agent's history also takes messages from another's: its
   * history is left alone exactly when all its active messages are newer than the cut.
   */
  lemma OtherAgentUnaffectedExactlyWhen(table: seq<Message>, session: nat, agent: string, other: string,
                                        split: int, summary: string, cost: nat)
    requires agent != "" && other != "" && other != agent
    requires 1 <= split <= |ListHistory(table, session, agent, 1000)|
    ensures var items, theirs := ListHistory(table, session, agent, 1000), ActiveRows(table, session, other);
            ActiveRows(Compacted(table, session, agent, items, split, summary, cost), session, other) == theirs
            <==> forall i :: 0 <= i < |theirs| ==> theirs[i].id > items[split - 1].id
  {
    var items := ListHistory(table, session, agent, 1000);
    OtherAgentsHistory(table, session, agent, other, items, split, summary, cost);
    NothingDropped(ActiveRows(table, session, other), items[split - 1].id);
  }

  const THEIRS: Message := Message(1, 0, "b", "user", "hi", 1, false)
  const OURS: seq<Message> := [Message(2, 0, "a", "user", "x", 1000, false),
                               Message(3, 0, "a", "user", "y", 1000, false)]
  /** A small model, the usual ratio, and one message to keep. */
  const SMALL: Settings := Settings(0, 0.75, 1)

  lemma MixedTable()
    ensures ActiveRows([THEIRS] + OURS, 0, "a") == OURS && ActiveRows([THEIRS] + OURS, 0, "b") == [THEIRS]
  {
    var table := [THEIRS] + OURS;
    assert table == [] + [THEIRS] + [OURS[0]] + [OURS[1]] && OURS == [] + [OURS[0]] + [OURS[1]];
    forall who | who in {"a", "b"}
      ensures ActiveRows(table, 0, who) == if who == "a" then OURS else [THEIRS]
    {
      ActiveAppend([], THEIRS, 0, who);
      ActiveAppend([] + [THEIRS], OURS[0], 0, who);
      ActiveAppend([] + [THEIRS] + [OURS[0]], OURS[1], 0, who);
    }
  }

  /** For instance: compaction goes ahead for one agent, and the other agent's one message leaves its history. */
  lemma OtherAgentLosesItsMessage()
    ensures var table := [THEIRS] + OURS;
            && TableOk(table)
            && ListHistory(table, 0, "a", 1000) == OURS && Proceeds(SMALL, OURS) && IsSplit(OURS, 1, Window(SMALL), 1)
            && ActiveRows(table, 0, "b") == [THEIRS]
            && ActiveRows(Compacted(table, 0, "a", OURS, 1, "s", 1), 0, "b") == []
  {
    var table := [THEIRS] + OURS;
    MixedTable();
    TokensConcat([OURS[0]], [OURS[1]]);
    assert OURS == [OURS[0]] + [OURS[1]] && [OURS[0]][..0] == [] && [OURS[1]][..0] == [];
    assert Tokens(OURS) == 2000;
    OtherAgentsHistory(table, 0, "a", "b", OURS, 1, "s", 1);
    assert [THEIRS][..0] == [];
  }
}
