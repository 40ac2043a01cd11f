/** The resumable event backfill: pages of events, an atomic commit of rows and cursor, crashes and resumes. */
module Backfill {
  import opened Wrappers

  /******* Events and rows *******/

  datatype Event = Event(ledger: int, action: string, projectKey: string, value: string)

  /** The columns of the unique constraint; the ledger is not one of them. */
  datatype RowKey = RowKey(action: string, projectKey: string, value: string)

  function KeyOf(e: Event): RowKey {
    RowKey(e.action, e.projectKey, e.value)
  }

  predicate HasKey(rows: seq<Event>, key: RowKey) {
    exists i :: 0 <= i < |rows| && KeyOf(rows[i]) == key
  }

  /** `INSERT ... ON CONFLICT DO NOTHING`, row by row. */
  function Merge(rows: seq<Event>, events: seq<Event>): seq<Event> {
    if events == [] then rows
    else
      var before := Merge(rows, events[..|events| - 1]);
      var e := events[|events| - 1];
      if HasKey(before, KeyOf(e)) then before else before + [e]
  }

  /** The events of the chain in a ledger range, in chain order. */
  function Range(chain: seq<Event>, first: int, last: int): seq<Event> {
    if chain == [] then []
    else (if first <= chain[0].ledger <= last then [chain[0]] else []) + Range(chain[1..], first, last)
  }

  /** How many leading events lie before a ledger: where a scan by start ledger begins. */
  function Offset(log: seq<Event>, start: int): (k: nat)
    ensures k <= |log|
  {
    if log == [] || log[0].ledger >= start then 0 else 1 + Offset(log[1..], start)
  }

  function MaxLedger(events: seq<Event>, base: int): int {
    if events == [] then base
    else
      var m := MaxLedger(events[..|events| - 1], base);
      if events[|events| - 1].ledger > m then events[|events| - 1].ledger else m
  }

  /******* The database *******/

  datatype Checkpoint = Checkpoint(genesis: int, tip: int, lastCompleted: int, cursor: Option<nat>, completed: bool)

  datatype Db = Db(rows: seq<Event>, checkpoint: Option<Checkpoint>)

  /** One transaction: the rows, and the checkpoint whose genesis and tip are written only once. */
  function Committed(db: Db, events: seq<Event>, genesis: int, tip: int, last: int, cursor: Option<nat>,
                     completed: bool): Db {
    Db(Merge(db.rows, events),
       Some(if db.checkpoint.None? then Checkpoint(genesis, tip, last, cursor, completed)
            else db.checkpoint.value.(lastCompleted := last, cursor := cursor, completed := completed)))
  }

  /******* The RPC server *******/

  /** One answer of the outside world: a page of some size, with a cursor even when nothing is left if `more`;
      a transient error; or the death of the process. */
  datatype Reply = Page(count: nat, more: bool) | RpcError | Killed

  /** The position after a page that starts at `pos`. */
  function PageEnd(log: seq<Event>, pos: nat, limit: nat, reply: Reply): (end: nat)
    requires pos <= |log| && reply.Page?
    ensures pos <= end <= |log|
  {
    var n := if reply.count < limit then reply.count else limit;
    if n < |log| - pos then pos + n else |log|
  }

  /** The cursor returned with a page; its absence means the tip is reached. */
  function PageCursor(log: seq<Event>, end: nat, reply: Reply): Option<nat>
    requires reply.Page?
  {
    if end == |log| && !reply.more then None else Some(end)
  }

  /** `_fetch_page_with_backoff`: errors are retried up to a limit; `None` if the run dies here. */
  function Fetch(script: seq<Reply>, maxRetries: nat, attempt: nat): (r: (Option<Reply>, seq<Reply>))
    ensures r.0.Some? ==> r.0.value.Page? && |r.1| < |script|
    decreases |script|
  {
    if script == [] then (None, [])
    else
      match script[0]
      case Page(_, _) => (Some(script[0]), script[1..])
      case Killed => (None, script[1..])
      case RpcError => if attempt + 1 > maxRetries then (None, script[1..])
      else Fetch(script[1..], maxRetries, attempt + 1)
  }

  /******* One run, as a function *******/

  datatype Config = Config(chain: seq<Event>, genesis: int, interval: int, limit: nat, maxRetries: nat)

  /** The local variables of the scan loop. */
  datatype Scan = Scan(tip: int, cursor: Option<nat>, start: int, pending: seq<Event>, maxSeen: int,
                       lastCheckpointed: int)

  function LogTo(c: Config, tip: int): seq<Event> {
    Range(c.chain, c.genesis, tip)
  }

  function Begin(c: Config, db: Db, latest: int): Scan {
    if db.checkpoint.None? then Scan(latest, None, c.genesis, [], c.genesis - 1, c.genesis - 1)
    else
      var ck := db.checkpoint.value;
      Scan(ck.tip, ck.cursor, ck.lastCompleted + 1, [], ck.lastCompleted, ck.lastCompleted)
  }

  /** Where the next page starts: at the cursor, or without one at the start ledger. */
  function Position(c: Config, s: Scan): (pos: nat)
    ensures pos <= |LogTo(c, s.tip)|
  {
    var log := LogTo(c, s.tip);
    if s.cursor.Some? && s.cursor.value <= |log| then s.cursor.value
    else if s.cursor.Some? then |log|
    else Offset(log, s.start)
  }

  /** One turn of the loop on a page: the database and the variables afterwards. */
  function Turn(c: Config, db: Db, s: Scan, reply: Reply): (Db, Scan)
    requires reply.Page?
  {
    var log, pos := LogTo(c, s.tip), Position(c, s);
    var end := PageEnd(log, pos, c.limit, reply);
    var pending := s.pending + log[pos..end];
    var maxSeen := MaxLedger(log[pos..end], s.maxSeen);
    var cursor := PageCursor(log, end, reply);
    if cursor.None? || maxSeen - s.lastCheckpointed >= c.interval then
      var last := if cursor.None? then s.tip else maxSeen;
      (Committed(db, pending, c.genesis, s.tip, last, cursor, cursor.None?),
       Scan(s.tip, cursor, s.start, [], maxSeen, last))
    else
      (db, Scan(s.tip, cursor, s.start, pending, maxSeen, s.lastCheckpointed))
  }

  function Loop(c: Config, db: Db, s: Scan, script: seq<Reply>): Db
    decreases |script|
  {
    var (reply, rest) := Fetch(script, c.maxRetries, 0);
    if reply.None? then db
    else
      var (db', s') := Turn(c, db, s, reply.value);
      if s'.cursor.None? then db' else Loop(c, db', s', rest)
  }

  function RunOnce(c: Config, db: Db, latest: int, script: seq<Reply>): Db {
    if db.checkpoint.Some? && (db.checkpoint.value.genesis != c.genesis || db.checkpoint.value.completed) then db
    else Loop(c, db, Begin(c, db, latest), script)
  }

  /******* Rows by their columns *******/

  /** Some row has the action, the project and the value of the event. */
  predicate HasRow(rows: seq<Event>, e: Event) {
    exists k :: 0 <= k < |rows| && SameColumns(rows[k], e)
  }

  predicate SameColumns(a: Event, b: Event) {
    a.action == b.action && a.projectKey == b.projectKey && a.value == b.value
  }

  /** The old rows stay; every event has its row; the new rows are the events at the places `at`, in order; and no
      new row agrees with an earlier row in all three columns. */
  ghost predicate Deduplicated(rows: seq<Event>, events: seq<Event>, at: seq<nat>, next: seq<Event>) {
    && rows <= next && |next| == |rows| + |at|
    && (forall e :: e in events ==> HasRow(next, e))
    && (forall i, j :: 0 <= i < j < |at| ==> at[i] < at[j])
    && (forall i :: 0 <= i < |at| ==> at[i] < |events|)
    && (forall k :: |rows| <= k < |next| ==> next[k] == events[at[k - |rows|]])
    && (forall j, k :: 0 <= j < k < |next| && |rows| <= k ==> !SameColumns(next[j], next[k]))
  }

  /** `e` comes after all the events: it gets a row if none has its columns. */
  lemma DeduplicatedStep(rows: seq<Event>, events: seq<Event>, at: seq<nat>, next: seq<Event>, e: Event)
    requires Deduplicated(rows, events, at, next)
    ensures HasRow(next, e) ==> Deduplicated(rows, events + [e], at, next)
    ensures !HasRow(next, e) ==> Deduplicated(rows, events + [e], at + [|events|], next + [e])
  {
    var more := next + [e];
    forall x | x in events ensures HasRow(more, x) {
      var k :| 0 <= k < |next| && SameColumns(next[k], x);
      assert more[k] == next[k];
    }
    assert SameColumns(more[|next|], e);
    assert forall x :: x in events + [e] <==> x in events || x == e;
  }

  /** What the merge means for the table: nothing is lost, nothing is repeated, and the order is kept. */
  lemma {:induction false} MergeColumns(rows: seq<Event>, events: seq<Event>) returns (at: seq<nat>)
    ensures Deduplicated(rows, events, at, Merge(rows, events))
  {
    at := [];
    if events != [] {
      var n := |events| - 1;
      at := MergeColumns(rows, events[..n]);
      var before := Merge(rows, events[..n]);
      DeduplicatedStep(rows, events[..n], at, before, events[n]);
      assert events[..n] + [events[n]] == events;
      assert HasKey(before, KeyOf(events[n])) <==> HasRow(before, events[n]) by {
        assert forall k :: 0 <= k < |before| ==> (KeyOf(before[k]) == KeyOf(events[n])
                                                  <==> SameColumns(before[k], events[n]));
      }
      if !HasRow(before, events[n]) {
        at := at + [n];
      }
    }
  }

  /** Two events that differ in any one column have different rows. */
  lemma RowsApart(rows: seq<Event>, events: seq<Event>, at: seq<nat>, next: seq<Event>, a: Event, b: Event)
    returns (j: nat, k: nat)
    requires Deduplicated(rows, events, at, next) && a in events && b in events
    requires a.action != b.action || a.projectKey != b.projectKey || a.value != b.value
    ensures j < |next| && k < |next| && j != k && SameColumns(next[j], a) && SameColumns(next[k], b)
  {
    assert HasRow(next, a) && HasRow(next, b);
    j :| 0 <= j < |next| && SameColumns(next[j], a);
    k :| 0 <= k < |next| && SameColumns(next[k], b);
  }

  lemma {:induction false} RangeMembers(chain: seq<Event>, first: int, last: int, e: Event)
    ensures e in Range(chain, first, last) <==> e in chain && first <= e.ledger <= last
  {
    if chain != [] {
      RangeMembers(chain[1..], first, last, e);
    }
  }

  /** The log of a range holds exactly the events of the chain in these ledgers, the bounds included, in order. */
  lemma {:induction false} RangeMeaning(chain: seq<Event>, first: int, last: int) returns (at: seq<nat>)
    ensures Places(chain, Range(chain, first, last), at)
    ensures forall e :: e in Range(chain, first, last) <==> e in chain && first <= e.ledger <= last
  {
    at := [];
    forall e ensures e in Range(chain, first, last) <==> e in chain && first <= e.ledger <= last {
      RangeMembers(chain, first, last, e);
    }
    if chain != [] {
      var rest := RangeMeaning(chain[1..], first, last);
      var later := PlacesBehind(chain, Range(chain[1..], first, last), rest);
      at := if first <= chain[0].ledger <= last then [0] + later else later;
    }
  }

  /******* The program *******/

  datatype Outcome = Finished(checkpoint: Checkpoint) | WrongGenesis | Interrupted

  class Backfiller {
    var rows: seq<Event>
    var checkpoint: Option<Checkpoint>

    ghost function Contents(): Db
      reads this
    {
      Db(rows, checkpoint)
    }

    constructor (rows: seq<Event>)
      ensures Contents() == Db(rows, None)
    {
      this.rows := rows;
      checkpoint := None;
    }

    method CommitProgress(events: seq<Event>, genesis: int, tip: int, last: int, cursor: Option<nat>, completed: bool)
      modifies this
      ensures Contents() == Committed(old(Contents()), events, genesis, tip, last, cursor, completed)
      ensures checkpoint.Some?
      ensures old(rows) <= rows && forall k :: |old(rows)| <= k < |rows| ==> rows[k] in events
      ensures forall e :: e in events ==> HasRow(rows, e)
      ensures forall j, k :: 0 <= j < k < |rows| && |old(rows)| <= k ==> !SameColumns(rows[j], rows[k])
    {
      ghost var at := MergeColumns(rows, events);
      var i := 0;
      assert events[..0] == [];
      while i < |events|
        invariant 0 <= i <= |events|
        invariant rows == Merge(old(rows), events[..i])
        invariant checkpoint == old(checkpoint)
      {
        assert events[..i + 1][..i] == events[..i];
        if !HasKey(rows, KeyOf(events[i])) {
          rows := rows + [events[i]];
        }
        i := i + 1;
      }
      assert events[..i] == events;
      checkpoint := Some(match checkpoint
                         case None => Checkpoint(genesis, tip, last, cursor, completed)
                         case Some(ck) => ck.(lastCompleted := last, cursor := cursor, completed := completed));
    }

    static method FetchPageWithBackoff(script: seq<Reply>, maxRetries: nat)
      returns (reply: Option<Reply>, rest: seq<Reply>)
      ensures (reply, rest) == Fetch(script, maxRetries, 0)
    {
      rest := script;
      var attempt := 0;
      while true
        invariant Fetch(rest, maxRetries, attempt) == Fetch(script, maxRetries, 0)
        decreases |rest|
      {
        if rest == [] {
          return None, [];
        }
        var head := rest[0];
        rest := rest[1..];
        match head {
          case Page(_, _) =>
            return Some(head), rest;
          case Killed =>
            return None, rest;
          case RpcError =>
            attempt := attempt + 1;
            if attempt > maxRetries {
              return None, rest;
            }
        }
      }
    }

    /** One invocation.  `latest` is the chain tip it would see, `script` what the outside world answers until
        the process ends. */
    method BackfillFromGenesis(c: Config, latest: int, script: seq<Reply>) returns (outcome: Outcome)
      modifies this
      ensures Contents() == RunOnce(c, old(Contents()), latest, script)
      ensures outcome.WrongGenesis? <==> old(checkpoint).Some? && old(checkpoint).value.genesis != c.genesis
      ensures outcome.WrongGenesis? ==> rows == old(rows) && checkpoint == old(checkpoint)
      ensures outcome.Finished? ==> checkpoint == Some(outcome.checkpoint)
      ensures !outcome.WrongGenesis? ==> (outcome.Finished? <==> checkpoint.Some? && checkpoint.value.completed)
    {
      if checkpoint.Some? && checkpoint.value.genesis != c.genesis {
        return WrongGenesis;
      }
      if checkpoint.Some? && checkpoint.value.completed {
        return Finished(checkpoint.value);
      }
      var tip, start, cursor, lastCheckpointed := latest, c.genesis, None, c.genesis - 1;
      if checkpoint.Some? {
        tip, start := checkpoint.value.tip, checkpoint.value.lastCompleted + 1;
        cursor, lastCheckpointed := checkpoint.value.cursor, checkpoint.value.lastCompleted;
      }
      var pending: seq<Event> := [];
      var maxSeen := lastCheckpointed;
      var left := script;
      while true
        invariant RunOnce(c, old(Contents()), latest, script)
               == Loop(c, Contents(), Scan(tip, cursor, start, pending, maxSeen, lastCheckpointed), left)
        invariant checkpoint.Some? ==> !checkpoint.value.completed
        decreases |left|
      {
        ghost var s, before := Scan(tip, cursor, start, pending, maxSeen, lastCheckpointed), Contents();
        var reply, rest := FetchPageWithBackoff(left, c.maxRetries);
        if reply.None? {
          return Interrupted;
        }
        left := rest;
        var log := LogTo(c, tip);
        var pos := Position(c, Scan(tip, cursor, start, pending, maxSeen, lastCheckpointed));
        var end := PageEnd(log, pos, c.limit, reply.value);
        var mapped := log[pos..end];
        pending := pending + mapped;
        if mapped != [] {
          maxSeen := MaxLedger(mapped, maxSeen);
        }
        cursor := PageCursor(log, end, reply.value);
        var reachedTip := cursor.None?;
        if reachedTip || maxSeen - lastCheckpointed >= c.interval {
          var completedLedger := if reachedTip then tip else maxSeen;
          CommitProgress(pending, c.genesis, tip, completedLedger, cursor, reachedTip);
          pending := [];
          lastCheckpointed := completedLedger;
        }
        assert Turn(c, before, s, reply.value)
            == (Contents(), Scan(tip, cursor, start, pending, maxSeen, lastCheckpointed));
        if reachedTip {
          return Finished(checkpoint.value);
        }
      }
    }
  }

  /******* What the rows mean *******/

  ghost predicate UniqueKeys(rows: seq<Event>) {
    forall i, j :: 0 <= i < j < |rows| ==> KeyOf(rows[i]) != KeyOf(rows[j])
  }

  /** `e` is the first event of the log with its key, and no row had that key before. */
  ghost predicate FirstOccurrence(rows: seq<Event>, events: seq<Event>, e: Event) {
    !HasKey(rows, KeyOf(e)) && exists i :: 0 <= i < |events| && events[i] == e && !HasKey(events[..i], KeyOf(e))
  }

  lemma HasKeyAppend(rows: seq<Event>, e: Event, key: RowKey)
    ensures HasKey(rows + [e], key) <==> HasKey(rows, key) || KeyOf(e) == key
  {
    var more := rows + [e];
    if HasKey(rows, key) {
      var i :| 0 <= i < |rows| && KeyOf(rows[i]) == key;
      assert more[i] == rows[i];
    }
    assert more[|rows|] == e;
  }

  /** The merged rows start with the old ones, hold each key once, cover exactly the keys of both, and every
      new row is the first event of the log with its key. */
  lemma {:induction false} MergeMeaning(rows: seq<Event>, events: seq<Event>)
    requires UniqueKeys(rows)
    ensures rows <= Merge(rows, events) && UniqueKeys(Merge(rows, events))
    ensures forall key :: HasKey(Merge(rows, events), key) <==> HasKey(rows, key) || HasKey(events, key)
    ensures forall k :: |rows| <= k < |Merge(rows, events)| ==> FirstOccurrence(rows, events, Merge(rows, events)[k])
  {
    if events != [] {
      var n := |events| - 1;
      var front, e := events[..n], events[n];
      MergeMeaning(rows, front);
      assert events == front + [e];
      forall key
        ensures HasKey(events, key) <==> HasKey(front, key) || KeyOf(e) == key
      {
        HasKeyAppend(front, e, key);
      }
      var before := Merge(rows, front);
      forall key
        ensures HasKey(before + [e], key) <==> HasKey(before, key) || KeyOf(e) == key
      {
        HasKeyAppend(before, e, key);
      }
      forall k | |rows| <= k < |Merge(rows, events)|
        ensures FirstOccurrence(rows, events, Merge(rows, events)[k])
      {
        if k < |before| {
          var i :| 0 <= i < |front| && front[i] == before[k] && !HasKey(front[..i], KeyOf(before[k]));
          assert events[..i] == front[..i];
        } else {
          assert events[n] == e && events[..n] == front;
        }
      }
    }
  }

  lemma {:induction false} MergeSplit(rows: seq<Event>, s: seq<Event>, t: seq<Event>)
    ensures Merge(rows, s + t) == Merge(Merge(rows, s), t)
  {
    if t == [] {
      assert s + t == s;
    } else {
      assert (s + t)[..|s + t| - 1] == s + t[..|t| - 1];
      MergeSplit(rows, s, t[..|t| - 1]);
    }
  }

  /******* Crash safety *******/

  /** The rows are those of the log before the stored cursor, or of the whole log once completed. */
  ghost predicate Consistent(c: Config, original: seq<Event>, db: Db) {
    match db.checkpoint
    case None => db.rows == original
    case Some(ck) =>
      var log := LogTo(c, ck.tip);
      && ck.genesis == c.genesis
      && (ck.completed <==> ck.cursor.None?)
      && (ck.completed ==> ck.lastCompleted == ck.tip && db.rows == Merge(original, log))
      && (!ck.completed ==>
            && ck.cursor.value <= |log|
            && db.rows == Merge(original, log[..ck.cursor.value])
            && ck.lastCompleted == MaxLedger(log[..ck.cursor.value], c.genesis - 1))
  }

  /** The loop variables agree with the database: what is pending is the log between the committed and the
      current position. */
  ghost predicate InStep(c: Config, original: seq<Event>, db: Db, s: Scan) {
    var log, pos := LogTo(c, s.tip), Position(c, s);
    && Consistent(c, original, db)
    && (db.checkpoint.Some? ==> s.tip == db.checkpoint.value.tip && !db.checkpoint.value.completed)
    && (s.cursor.Some? ==> s.cursor.value <= |log|)
    && Merge(db.rows, s.pending) == Merge(original, log[..pos])
    && s.maxSeen == MaxLedger(log[..pos], c.genesis - 1)
  }

  lemma {:induction false} MaxLedgerSplit(s: seq<Event>, t: seq<Event>, base: int)
    ensures MaxLedger(s + t, base) == MaxLedger(t, MaxLedger(s, base))
  {
    if t == [] {
      assert s + t == s;
    } else {
      assert (s + t)[..|s + t| - 1] == s + t[..|t| - 1];
      MaxLedgerSplit(s, t[..|t| - 1], base);
    }
  }

  lemma {:induction false} RangeInBounds(chain: seq<Event>, first: int, last: int)
    ensures forall i :: 0 <= i < |Range(chain, first, last)| ==> first <= Range(chain, first, last)[i].ledger <= last
  {
    if chain != [] {
      RangeInBounds(chain[1..], first, last);
    }
  }

  /** A run begins where the checkpoint stands. */
  lemma BeginInStep(c: Config, original: seq<Event>, db: Db, latest: int)
    requires Consistent(c, original, db) && (db.checkpoint.Some? ==> !db.checkpoint.value.completed)
    ensures InStep(c, original, db, Begin(c, db, latest))
  {
    var s := Begin(c, db, latest);
    var log := LogTo(c, s.tip);
    if db.checkpoint.None? {
      RangeInBounds(c.chain, c.genesis, s.tip);
      assert Position(c, s) == 0;
      assert log[..0] == [];
    } else {
      assert Position(c, s) == s.cursor.value;
    }
  }

  lemma TurnInStep(c: Config, original: seq<Event>, db: Db, s: Scan, reply: Reply)
    requires InStep(c, original, db, s) && reply.Page?
    ensures var (db', s') := Turn(c, db, s, reply);
            && Consistent(c, original, db')
            && (s'.cursor.Some? ==> InStep(c, original, db', s'))
            && (s'.cursor.None? ==> db'.checkpoint.Some? && db'.checkpoint.value.completed
                                    && db'.checkpoint.value.tip == s.tip)
  {
    var log, pos := LogTo(c, s.tip), Position(c, s);
    var end := PageEnd(log, pos, c.limit, reply);
    PageAdvances(c, original, db, s, pos, end);
    var pending, maxSeen := s.pending + log[pos..end], MaxLedger(log[pos..end], s.maxSeen);
    var cursor := PageCursor(log, end, reply);
    if cursor.None? || maxSeen - s.lastCheckpointed >= c.interval {
      CommitKeeps(c, original, db, s.tip, end, pending, maxSeen, cursor);
    }
  }

  /** After a page the pending events and the highest ledger belong to the new position. */
  lemma PageAdvances(c: Config, original: seq<Event>, db: Db, s: Scan, pos: nat, end: nat)
    requires InStep(c, original, db, s) && pos == Position(c, s) && pos <= end <= |LogTo(c, s.tip)|
    ensures var log := LogTo(c, s.tip);
            && Merge(db.rows, s.pending + log[pos..end]) == Merge(original, log[..end])
            && MaxLedger(log[pos..end], s.maxSeen) == MaxLedger(log[..end], c.genesis - 1)
  {
    var log := LogTo(c, s.tip);
    assert log[..pos] + log[pos..end] == log[..end];
    MergeSplit(db.rows, s.pending, log[pos..end]);
    MergeSplit(original, log[..pos], log[pos..end]);
    MaxLedgerSplit(log[..pos], log[pos..end], c.genesis - 1);
  }

  /** Committing everything before position `end` gives a consistent database. */
  lemma CommitKeeps(c: Config, original: seq<Event>, db: Db, tip: int, end: nat, pending: seq<Event>, maxSeen: int,
                    cursor: Option<nat>)
    requires Consistent(c, original, db)
    requires db.checkpoint.Some? ==> tip == db.checkpoint.value.tip && !db.checkpoint.value.completed
    requires var log := LogTo(c, tip);
             && end <= |log|
             && Merge(db.rows, pending) == Merge(original, log[..end])
             && maxSeen == MaxLedger(log[..end], c.genesis - 1)
             && (cursor == Some(end) || (cursor == None && end == |log|))
    ensures var last := if cursor.None? then tip else maxSeen;
            Consistent(c, original, Committed(db, pending, c.genesis, tip, last, cursor, cursor.None?))
  {
    assert LogTo(c, tip)[..|LogTo(c, tip)|] == LogTo(c, tip);
  }

  lemma {:induction false} LoopKeeps(c: Config, original: seq<Event>, db: Db, s: Scan, script: seq<Reply>)
    requires InStep(c, original, db, s)
    ensures Consistent(c, original, Loop(c, db, s, script))
    decreases |script|
  {
    var (reply, rest) := Fetch(script, c.maxRetries, 0);
    if reply.Some? {
      TurnInStep(c, original, db, s, reply.value);
      var (db', s') := Turn(c, db, s, reply.value);
      if s'.cursor.Some? {
        LoopKeeps(c, original, db', s', rest);
      }
    }
  }

  /** However a run ends, the database is consistent. */
  lemma RunKeepsConsistent(c: Config, original: seq<Event>, db: Db, latest: int, script: seq<Reply>)
    requires Consistent(c, original, db)
    ensures Consistent(c, original, RunOnce(c, db, latest, script))
  {
    if db.checkpoint.None? || !db.checkpoint.value.completed {
      BeginInStep(c, original, db, latest);
      LoopKeeps(c, original, db, Begin(c, db, latest), script);
    }
  }

  /** Each run of a history may use other tuning (interval, page limit, retries) and see another tip. */
  datatype Attempt = Attempt(interval: int, limit: nat, maxRetries: nat, latest: int, script: seq<Reply>)

  function History(chain: seq<Event>, genesis: int, db: Db, attempts: seq<Attempt>): Db
    decreases |attempts|
  {
    if attempts == [] then db
    else
      var a := attempts[0];
      History(chain, genesis, RunOnce(Config(chain, genesis, a.interval, a.limit, a.maxRetries), db, a.latest,
                                      a.script), attempts[1..])
  }

  /** Consistency depends on the chain and the genesis only. */
  lemma SameLog(c: Config, e: Config, original: seq<Event>, db: Db)
    requires c.chain == e.chain && c.genesis == e.genesis
    ensures Consistent(c, original, db) <==> Consistent(e, original, db)
  {
  }

  /** For every placement of crashes, errors and restarts the rows are the deduplicated log before the stored
      cursor, and once completed those of the whole range from genesis to the recorded tip. */
  lemma {:induction false} HistoryConsistent(c: Config, original: seq<Event>, db: Db, attempts: seq<Attempt>)
    requires Consistent(c, original, db)
    ensures Consistent(c, original, History(c.chain, c.genesis, db, attempts))
    decreases |attempts|
  {
    if attempts != [] {
      var a := attempts[0];
      var e := Config(c.chain, c.genesis, a.interval, a.limit, a.maxRetries);
      SameLog(c, e, original, db);
      RunKeepsConsistent(e, original, db, a.latest, a.script);
      SameLog(c, e, original, RunOnce(e, db, a.latest, a.script));
      HistoryConsistent(c, original, RunOnce(e, db, a.latest, a.script), attempts[1..]);
    }
  }

  /** The same in terms of the table, after any history: it starts with the rows that were there; every event of the
      range before the stored cursor, of the whole range once completed, has a row with its action, project and
      value; the new rows are such events in their order; and none agrees with an earlier row in all three. */
  lemma HistoryRows(c: Config, original: seq<Event>, attempts: seq<Attempt>)
    returns (log: seq<Event>, done: nat, at: seq<nat>)
    ensures var r := History(c.chain, c.genesis, Db(original, None), attempts);
            match r.checkpoint
            case None => r.rows == original
            case Some(ck) =>
              && log == LogTo(c, ck.tip)
              && done == (if ck.completed then |log| else if ck.cursor.Some? then ck.cursor.value else 0)
              && done <= |log|
              && Deduplicated(original, log[..done], at, r.rows)
              && (ck.completed ==>
                    forall e :: e in c.chain && c.genesis <= e.ledger <= ck.tip ==> HasRow(r.rows, e))
  {
    HistoryConsistent(c, original, Db(original, None), attempts);
    var r := History(c.chain, c.genesis, Db(original, None), attempts);
    log, done, at := [], 0, [];
    if r.checkpoint.Some? {
      var ck := r.checkpoint.value;
      log := LogTo(c, ck.tip);
      done := if ck.completed then |log| else ck.cursor.value;
      at := MergeColumns(original, log[..done]);
      assert log[..|log|] == log;
      var places := RangeMeaning(c.chain, c.genesis, ck.tip);
    }
  }

  /******* When a run completes *******/

  /** The pages a run gets before it dies: between two of them there are no more errors than are retried. */
  function Obtained(script: seq<Reply>, maxRetries: nat): (pages: seq<Reply>)
    ensures forall i :: 0 <= i < |pages| ==> pages[i].Page?
    decreases |script|
  {
    var (reply, rest) := Fetch(script, maxRetries, 0);
    if reply.None? then [] else [reply.value] + Obtained(rest, maxRetries)
  }

  function Smaller(a: nat, b: nat): nat {
    if a < b then a else b
  }

  /** The events that the pages have room for. */
  function Room(pages: seq<Reply>, limit: nat): nat
    requires forall i :: 0 <= i < |pages| ==> pages[i].Page?
  {
    if pages == [] then 0 else Smaller(pages[0].count, limit) + Room(pages[1..], limit)
  }

  /** Page `k` comes without a cursor, and with it there was room for `n` events. */
  predicate LastPageAt(pages: seq<Reply>, limit: nat, n: int, k: nat)
    requires k < |pages| && forall i :: 0 <= i < |pages| ==> pages[i].Page?
  {
    !pages[k].more && Room(pages[..k + 1], limit) >= n
  }

  predicate Suffices(pages: seq<Reply>, limit: nat, n: int)
    requires forall i :: 0 <= i < |pages| ==> pages[i].Page?
  {
    exists k :: 0 <= k < |pages| && LastPageAt(pages, limit, n, k)
  }

  lemma LastPageShift(page: Reply, pages: seq<Reply>, limit: nat, n: int, k: nat)
    requires page.Page? && k < |pages| && forall i :: 0 <= i < |pages| ==> pages[i].Page?
    ensures LastPageAt([page] + pages, limit, n, k + 1) <==> LastPageAt(pages, limit, n - Smaller(page.count, limit), k)
  {
    assert ([page] + pages)[..k + 2][1..] == pages[..k + 1];
  }

  lemma SufficesStep(page: Reply, pages: seq<Reply>, limit: nat, n: int)
    requires page.Page? && forall i :: 0 <= i < |pages| ==> pages[i].Page?
    requires page.more || Smaller(page.count, limit) < n
    ensures Suffices([page] + pages, limit, n) <==> Suffices(pages, limit, n - Smaller(page.count, limit))
  {
    var all := [page] + pages;
    if Suffices(pages, limit, n - Smaller(page.count, limit)) {
      var k :| 0 <= k < |pages| && LastPageAt(pages, limit, n - Smaller(page.count, limit), k);
      LastPageShift(page, pages, limit, n, k);
      assert LastPageAt(all, limit, n, k + 1);
    }
    if Suffices(all, limit, n) {
      var k :| 0 <= k < |all| && LastPageAt(all, limit, n, k);
      assert all[..1][1..] == [] && Room(all[..1], limit) == Smaller(page.count, limit) + Room(all[..1][1..], limit);
      LastPageShift(page, pages, limit, n, k - 1);
      assert LastPageAt(pages, limit, n - Smaller(page.count, limit), k - 1);
    }
  }

  lemma SufficesNow(page: Reply, pages: seq<Reply>, limit: nat, n: int)
    requires page.Page? && forall i :: 0 <= i < |pages| ==> pages[i].Page?
    requires !page.more && Smaller(page.count, limit) >= n
    ensures Suffices([page] + pages, limit, n)
  {
    var all := [page] + pages;
    assert all[..1] == [page] && [page][1..] == [];
    assert LastPageAt(all, limit, n, 0);
  }

  /** Nothing left to fetch is the same as more room than that. */
  lemma SufficesFromZero(pages: seq<Reply>, limit: nat, n: int)
    requires n <= 0 && forall i :: 0 <= i < |pages| ==> pages[i].Page?
    ensures Suffices(pages, limit, n) <==> Suffices(pages, limit, 0)
  {
    forall k | 0 <= k < |pages| ensures LastPageAt(pages, limit, n, k) <==> LastPageAt(pages, limit, 0, k) {
    }
  }

  ghost predicate Complete(db: Db) {
    db.checkpoint.Some? && db.checkpoint.value.completed
  }

  lemma SufficesAfter(page: Reply, pages: seq<Reply>, limit: nat, n: nat, left: nat)
    requires page.Page? && forall i :: 0 <= i < |pages| ==> pages[i].Page?
    requires page.more || Smaller(page.count, limit) < n
    requires left == if Smaller(page.count, limit) >= n then 0 else n - Smaller(page.count, limit)
    ensures Suffices([page] + pages, limit, n) <==> Suffices(pages, limit, left)
  {
    SufficesStep(page, pages, limit, n);
    if Smaller(page.count, limit) >= n {
      SufficesFromZero(pages, limit, n - Smaller(page.count, limit));
    }
  }

  /** How many events are still to come. */
  function Left(c: Config, s: Scan): nat {
    |LogTo(c, s.tip)| - Position(c, s)
  }

  /** What a page does to the number of events that are still to come. */
  lemma TurnProgress(c: Config, db: Db, s: Scan, page: Reply)
    requires page.Page?
    ensures var n, room := Left(c, s), Smaller(page.count, c.limit);
            var (db', s') := Turn(c, db, s, page);
            && s'.tip == s.tip
            && (s'.cursor.None? <==> !page.more && room >= n)
            && (s'.cursor.Some? ==> Left(c, s') == if room >= n then 0 else n - room)
  {
  }

  lemma {:induction false} LoopCompletesIff(c: Config, original: seq<Event>, db: Db, s: Scan, script: seq<Reply>)
    requires InStep(c, original, db, s)
    ensures Complete(Loop(c, db, s, script)) <==>
            Suffices(Obtained(script, c.maxRetries), c.limit, Left(c, s))
    decreases |script|
  {
    var (reply, rest) := Fetch(script, c.maxRetries, 0);
    if reply.Some? {
      var page, pages := reply.value, Obtained(rest, c.maxRetries);
      var n := Left(c, s);
      TurnInStep(c, original, db, s, page);
      TurnProgress(c, db, s, page);
      var (db', s') := Turn(c, db, s, page);
      if s'.cursor.None? {
        SufficesNow(page, pages, c.limit, n);
      } else {
        LoopCompletesIff(c, original, db', s', rest);
        SufficesAfter(page, pages, c.limit, n, Left(c, s'));
      }
    }
  }

  /** A fresh run completes exactly when, before it dies, a page comes without a cursor once the pages had room for
      the whole range.  Then it has the whole range. */
  lemma FreshRunCompletesIff(c: Config, original: seq<Event>, latest: int, script: seq<Reply>)
    ensures var r := RunOnce(c, Db(original, None), latest, script);
            && (Complete(r) <==> Suffices(Obtained(script, c.maxRetries), c.limit, |LogTo(c, latest)|))
            && (Complete(r) ==> r == Db(Merge(original, LogTo(c, latest)),
                                        Some(Checkpoint(c.genesis, latest, latest, None, true))))
  {
    var db := Db(original, None);
    var s := Begin(c, db, latest);
    BeginInStep(c, original, db, latest);
    RangeInBounds(c.chain, c.genesis, latest);
    assert Position(c, s) == 0;
    LoopCompletesIff(c, original, db, s, script);
    RunKeepsConsistent(c, original, db, latest, script);
    LoopGenesis(c, original, db, s, script);
  }

  /** A resumed run completes exactly when its pages have room for what lies at or after the stored cursor. */
  lemma ResumedRunCompletesIff(c: Config, original: seq<Event>, db: Db, latest: int, script: seq<Reply>)
    requires Consistent(c, original, db) && db.checkpoint.Some? && !db.checkpoint.value.completed
    ensures Complete(RunOnce(c, db, latest, script)) <==>
            var ck := db.checkpoint.value;
            Suffices(Obtained(script, c.maxRetries), c.limit, |LogTo(c, ck.tip)| - ck.cursor.value)
  {
    BeginInStep(c, original, db, latest);
    LoopCompletesIff(c, original, db, Begin(c, db, latest), script);
  }

  /** A page is fetched if and only if at most `maxRetries` errors, and nothing else, come before it; then it is that
      page, and the script goes on behind it. */
  lemma FetchRule(script: seq<Reply>, maxRetries: nat)
    ensures var r := Fetch(script, maxRetries, 0);
            forall k :: 0 <= k <= maxRetries && k < |script| && script[k].Page?
                        && (forall i :: 0 <= i < k ==> script[i].RpcError?) ==>
                          r == (Some(script[k]), script[k + 1..])
    ensures Fetch(script, maxRetries, 0).0.Some? ==>
              exists k :: 0 <= k <= maxRetries && k < |script| && script[k].Page?
                          && forall i :: 0 <= i < k ==> script[i].RpcError?
  {
    forall k | 0 <= k <= maxRetries && k < |script| && script[k].Page?
               && (forall i :: 0 <= i < k ==> script[i].RpcError?)
      ensures Fetch(script, maxRetries, 0) == (Some(script[k]), script[k + 1..])
    {
      FetchAfterErrors(script, maxRetries, 0, k);
    }
    if Fetch(script, maxRetries, 0).0.Some? {
      var k := FetchedAt(script, maxRetries, 0);
    }
  }

  lemma {:induction false} FetchAfterErrors(script: seq<Reply>, maxRetries: nat, attempt: nat, k: nat)
    requires attempt + k <= maxRetries && k < |script| && script[k].Page?
    requires forall i :: 0 <= i < k ==> script[i].RpcError?
    ensures Fetch(script, maxRetries, attempt) == (Some(script[k]), script[k + 1..])
    decreases |script|
  {
    if k > 0 {
      FetchAfterErrors(script[1..], maxRetries, attempt + 1, k - 1);
      assert script[1..][k..] == script[k + 1..];
    }
  }

  lemma {:induction false} FetchedAt(script: seq<Reply>, maxRetries: nat, attempt: nat) returns (k: nat)
    requires attempt <= maxRetries && Fetch(script, maxRetries, attempt).0.Some?
    ensures attempt + k <= maxRetries && k < |script| && script[k].Page?
    ensures forall i :: 0 <= i < k ==> script[i].RpcError?
    decreases |script|
  {
    if script[0].Page? {
      k := 0;
    } else {
      var rest := FetchedAt(script[1..], maxRetries, attempt + 1);
      k := rest + 1;
      assert forall i :: 0 < i < k ==> script[i] == script[1..][i - 1];
    }
  }

  /******* What a crash can cost *******/

  /** The variables of the loop and the database when the run ends without completing, or at its end. */
  function LastTurn(c: Config, db: Db, s: Scan, script: seq<Reply>): (Db, Scan)
    decreases |script|
  {
    var (reply, rest) := Fetch(script, c.maxRetries, 0);
    if reply.None? then (db, s)
    else
      var (db', s') := Turn(c, db, s, reply.value);
      if s'.cursor.None? then (db', s') else LastTurn(c, db', s', rest)
  }

  /** What is fetched and not yet stored spans fewer ledgers than the checkpoint interval. */
  predicate Lags(c: Config, db: Db, s: Scan) {
    && s.lastCheckpointed == (if db.checkpoint.None? then c.genesis - 1 else db.checkpoint.value.lastCompleted)
    && (s.pending == [] || s.maxSeen - s.lastCheckpointed < c.interval)
  }

  lemma {:induction false} LoopLags(c: Config, db: Db, s: Scan, script: seq<Reply>)
    requires Lags(c, db, s)
    ensures var (last, t) := LastTurn(c, db, s, script); last == Loop(c, db, s, script) && Lags(c, last, t)
    decreases |script|
  {
    var (reply, rest) := Fetch(script, c.maxRetries, 0);
    if reply.Some? {
      var (db', s') := Turn(c, db, s, reply.value);
      if s'.cursor.Some? {
        LoopLags(c, db', s', rest);
      }
    }
  }

  /** However a run ends, what it had fetched and not stored spans fewer ledgers than the interval. */
  lemma CrashCostsLittle(c: Config, db: Db, latest: int, script: seq<Reply>)
    requires db.checkpoint.Some? ==> db.checkpoint.value.genesis == c.genesis && !db.checkpoint.value.completed
    ensures var (last, t) := LastTurn(c, db, Begin(c, db, latest), script);
            last == RunOnce(c, db, latest, script) && Lags(c, last, t)
  {
    LoopLags(c, db, Begin(c, db, latest), script);
  }

  /******* Against an uninterrupted scan *******/

  /** A script without errors whose pages make progress. */
  ghost predicate Uninterrupted(script: seq<Reply>) {
    forall i :: 0 <= i < |script| ==> script[i].Page? && script[i].count > 0 && !script[i].more
  }

  /** Enough such pages always suffice. */
  lemma {:induction false} UninterruptedSuffices(script: seq<Reply>, limit: nat, maxRetries: nat, n: int)
    requires Uninterrupted(script) && limit > 0 && n < |script| && script != []
    ensures Suffices(Obtained(script, maxRetries), limit, n)
    decreases |script|
  {
    var page, rest := script[0], Obtained(script[1..], maxRetries);
    assert script[0].Page?;
    assert Obtained(script, maxRetries) == [page] + rest;
    if Smaller(page.count, limit) >= n {
      SufficesNow(page, rest, limit, n);
    } else {
      SufficesStep(page, rest, limit, n);
      UninterruptedSuffices(script[1..], limit, maxRetries, n - Smaller(page.count, limit));
    }
  }

  lemma {:induction false} LoopGenesis(c: Config, original: seq<Event>, db: Db, s: Scan, script: seq<Reply>)
    requires InStep(c, original, db, s)
    ensures var r := Loop(c, db, s, script); r.checkpoint.Some? ==> r.checkpoint.value.tip == s.tip
    decreases |script|
  {
    var (reply, rest) := Fetch(script, c.maxRetries, 0);
    if reply.Some? {
      TurnInStep(c, original, db, s, reply.value);
      var (db', s') := Turn(c, db, s, reply.value);
      if s'.cursor.Some? {
        LoopGenesis(c, original, db', s', rest);
      }
    }
  }

  /** Crash safety: whatever happened on the way, a completed backfill has the rows of any one run from scratch that
      gets through to the recorded tip, and running it again changes nothing. */
  lemma CompletedEqualsUninterrupted(c: Config, original: seq<Event>, attempts: seq<Attempt>, script: seq<Reply>,
                                     again: Attempt)
    requires var r := History(c.chain, c.genesis, Db(original, None), attempts);
             Complete(r) && Suffices(Obtained(script, c.maxRetries), c.limit, |LogTo(c, r.checkpoint.value.tip)|)
    ensures var r := History(c.chain, c.genesis, Db(original, None), attempts);
            && r == RunOnce(c, Db(original, None), r.checkpoint.value.tip, script)
            && RunOnce(Config(c.chain, c.genesis, again.interval, again.limit, again.maxRetries), r, again.latest,
                       again.script) == r
  {
    HistoryConsistent(c, original, Db(original, None), attempts);
    var r := History(c.chain, c.genesis, Db(original, None), attempts);
    FreshRunCompletesIff(c, original, r.checkpoint.value.tip, script);
  }

  /******* The ledger fallback *******/

  ghost predicate Ordered(chain: seq<Event>) {
    forall i, j :: 0 <= i < j < |chain| ==> chain[i].ledger <= chain[j].ledger
  }

  lemma {:induction false} RangeOrdered(chain: seq<Event>, first: int, last: int)
    requires Ordered(chain)
    ensures Ordered(Range(chain, first, last))
    ensures forall i :: 0 <= i < |Range(chain, first, last)| ==>
                          chain != [] && chain[0].ledger <= Range(chain, first, last)[i].ledger
  {
    if chain != [] {
      RangeOrdered(chain[1..], first, last);
    }
  }

  lemma {:induction false} OffsetMeaning(log: seq<Event>, start: int)
    requires Ordered(log)
    ensures forall i :: 0 <= i < |log| ==> (i < Offset(log, start) <==> log[i].ledger < start)
  {
    if log != [] && log[0].ledger < start {
      OffsetMeaning(log[1..], start);
      assert forall i :: 0 < i < |log| ==> log[i] == log[1..][i - 1];
    }
  }

  lemma {:induction false} MaxLedgerMeaning(events: seq<Event>, base: int)
    ensures base <= MaxLedger(events, base)
    ensures forall i :: 0 <= i < |events| ==> events[i].ledger <= MaxLedger(events, base)
    ensures MaxLedger(events, base) == base
            || exists i :: 0 <= i < |events| && events[i].ledger == MaxLedger(events, base)
  {
    if events != [] {
      var n := |events| - 1;
      MaxLedgerMeaning(events[..n], base);
      var m := MaxLedger(events[..n], base);
      if events[n].ledger <= m && m != base {
        var i :| 0 <= i < n && events[..n][i].ledger == m;
        assert events[i].ledger == m;
      }
    }
  }

  /** The stored `last_completed_ledger` is described as a fallback for a lost cursor.  Restarting at the ledger
      after it continues at the cursor if and only if the page did not end inside a ledger; otherwise the rest
      of that ledger would be skipped.  (The program itself never restarts by ledger: an unfinished checkpoint
      always has a cursor.) */
  lemma LedgerFallbackSafeIff(c: Config, original: seq<Event>, db: Db)
    requires Ordered(c.chain) && Consistent(c, original, db)
    requires db.checkpoint.Some? && !db.checkpoint.value.completed
    ensures var ck := db.checkpoint.value;
            var log := LogTo(c, ck.tip);
            && ck.cursor.Some? && ck.cursor.value <= |log|
            && (Offset(log, ck.lastCompleted + 1) == ck.cursor.value <==>
                ck.cursor.value == |log| || log[ck.cursor.value].ledger > ck.lastCompleted)
            && Offset(log, ck.lastCompleted + 1) >= ck.cursor.value
  {
    var ck := db.checkpoint.value;
    var log, p := LogTo(c, ck.tip), ck.cursor.value;
    RangeOrdered(c.chain, c.genesis, ck.tip);
    OffsetMeaning(log, ck.lastCompleted + 1);
    MaxLedgerMeaning(log[..p], c.genesis - 1);
    assert forall i :: 0 <= i < p ==> log[..p][i] == log[i];
  }

  /** A chain on which the fallback would lose an event: two different events in one ledger, pages of one, and a crash
      after the first. */
  lemma LedgerFallbackLosesAnEvent(a: Event, b: Event, tip: int, c: Config)
    requires a.ledger == b.ledger <= tip && KeyOf(a) != KeyOf(b) && c == Config([a, b], a.ledger, 1, 1, 0)
    ensures var db := RunOnce(c, Db([], None), tip, [Page(1, false), Killed]);
            && LogTo(c, tip) == [a, b]
            && db.rows == [a] && db.checkpoint.Some? && !db.checkpoint.value.completed
            && Offset(LogTo(c, tip), db.checkpoint.value.lastCompleted + 1) == 2
  {
    var log := LogTo(c, tip);
    assert c.chain[1..] == [b] && [b][1..] == [];
    assert Range([b], a.ledger, tip) == [b];
    assert log == [a, b];
    assert log[0..1] == [a] && [a][..0] == [];
    var script := [Page(1, false), Killed];
    assert script[1..] == [Killed];
    var s := Begin(c, Db([], None), tip);
    assert Position(c, s) == 0;
    var (db', s') := Turn(c, Db([], None), s, Page(1, false));
    assert MaxLedger([a], a.ledger - 1) == a.ledger;
    assert Merge([], [a]) == [a];
    assert s'.cursor == Some(1);
    assert Loop(c, db', s', [Killed]) == db';
    assert log[1..] == [b] && [b][1..] == [];
    assert Offset([b], a.ledger + 1) == 1;
  }
}
