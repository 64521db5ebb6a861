/** The operation history is keyed by a string put together from three parts; here is why two
    operations never share a key. */
module HistoryKeys {
  const TWO_31 := 0x8000_0000
  const TWO_32 := 0x1_0000_0000

  type Uint32 = n: nat | n < 0x1_0000_0000

  /** sizeof buffer minus the terminator: RESOURCE_NAME_MAX + METHOD_NAME_MAX + OP_NAME_MAX + 2. */
  const KEY_MAX := 1061

  function Digit(n: nat): (c: char)
    requires n < 10
    ensures '0' <= c <= '9' && c as int - '0' as int == n
  {
    ('0' as int + n) as char
  }

  function Decimal(n: nat): string {
    if n < 10 then [Digit(n)] else Decimal(n / 10) + [Digit(n % 10)]
  }

  /** "%d" of a 32-bit unsigned value. */
  function Signed(n: Uint32): string {
    if n < TWO_31 then Decimal(n) else "-" + Decimal(TWO_32 - n)
  }

  lemma {:induction false} DecimalDigits(n: nat)
    ensures Decimal(n) != "" && forall i :: 0 <= i < |Decimal(n)| ==> '0' <= Decimal(n)[i] <= '9'
  {
    if n >= 10 {
      DecimalDigits(n / 10);
    }
  }

  /** Read a number back. */
  function Value(s: string): int {
    if s == "" then 0 else 10 * Value(s[..|s| - 1]) + (s[|s| - 1] as int - '0' as int)
  }

  lemma {:induction false} DecimalRoundTrip(n: nat)
    ensures Value(Decimal(n)) == n
  {
    var s := Decimal(n);
    if n < 10 {
      assert s[..|s| - 1] == "";
    } else {
      DecimalRoundTrip(n / 10);
      assert s[..|s| - 1] == Decimal(n / 10);
    }
  }

  lemma SignedInjective(m: Uint32, n: Uint32)
    requires Signed(m) == Signed(n)
    ensures m == n
  {
    SignedShape(m);
    SignedShape(n);
  }

  /** The sign and the value of the digits give the number back. */
  lemma SignedShape(n: Uint32)
    ensures Signed(n) != "" && Plain(Signed(n)) && (Signed(n)[0] == '-' <==> n >= TWO_31)
    ensures n == if n >= TWO_31 then TWO_32 - Value(Signed(n)[1..]) else Value(Signed(n))
  {
    var d := if n < TWO_31 then n else TWO_32 - n;
    DecimalDigits(d);
    DecimalRoundTrip(d);
    assert n >= TWO_31 ==> Signed(n)[1..] == Decimal(d);
  }

  ghost predicate Plain(s: string) {
    forall i :: 0 <= i < |s| ==> s[i] != '_'
  }

  lemma PlainAfter(a: string, b: string)
    requires Plain(b)
    ensures var s := a + "_" + b; forall i :: |a| < i < |s| ==> s[i] != '_'
  {
  }

  /** A string splits in only one way at its last underscore. */
  lemma LastUnderscore(a: string, b: string, a': string, b': string)
    requires Plain(b) && Plain(b') && a + "_" + b == a' + "_" + b'
    ensures a == a' && b == b'
  {
    var s := a + "_" + b;
    PlainAfter(a, b);
    PlainAfter(a', b');
    assert s[|a|] == '_' && s[|a'|] == '_';
    assert a == s[..|a|] && b == s[|a| + 1..] && a' == s[..|a'|] && b' == s[|a'| + 1..];
  }

  /** The operation an entry is about. */
  datatype Key = Key(res: string, verb: string, interval: Uint32) {
    function Full(): string {
      res + "_" + verb + "_" + Signed(interval)
    }

    /** What snprintf leaves in the buffer. */
    function Text(): string {
      if |Full()| <= KEY_MAX then Full() else Full()[..KEY_MAX]
    }

    /** A method name without underscore, and a name that fits the buffer. */
    ghost predicate Ok() {
      Plain(verb) && |Full()| <= KEY_MAX
    }
  }

  /** Keys that fit never collide, whatever underscores the resource names contain. */
  lemma KeysNeverCollide(k: Key, k': Key)
    requires k.Ok() && k'.Ok() && k.Text() == k'.Text()
    ensures k == k'
  {
    SignedShape(k.interval);
    SignedShape(k'.interval);
    LastUnderscore(k.res + "_" + k.verb, Signed(k.interval), k'.res + "_" + k'.verb, Signed(k'.interval));
    LastUnderscore(k.res, k.verb, k'.res, k'.verb);
    SignedInjective(k.interval, k'.interval);
  }

  /** Exactly the keys that leave room in the buffer share their text with no other operation. */
  lemma SharedText(k: Key)
    requires Plain(k.verb)
    ensures (exists k' :: k' != k && Plain(k'.verb) && k'.Text() == k.Text()) <==> |k.Full()| >= KEY_MAX
  {
    if |k.Full()| >= KEY_MAX {
      var other := Key(k.Full()[..KEY_MAX], "stop", if k.interval == 0 then 1 else 0);
      assert other.Full()[..KEY_MAX] == other.res;
      assert other.Text() == k.Text();
    } else {
      forall k': Key | Plain(k'.verb) && k'.Text() == k.Text() ensures k' == k {
        KeysNeverCollide(k, k');
      }
    }
  }
}

/** What the history holds after any sequence of completed executions and clears. */
module OpHistory {
  import opened HistoryKeys

  const OCF_PENDING := -1

  /** One completed execution, as resource_action_completed reports it. The clock is read twice: when
      the exit code is noted, if it is a new one, and when the run is. */
  datatype Exec = Exec(key: Key, rc: int, noted: int, at: int, digest: string, target: int, graph: int, action: int)

  /** struct operation_history. */
  datatype Entry = Entry(key: Key, callId: nat, rc: int, target: int, lastRun: int, lastRcChange: int,
                         digest: string, graph: int, action: int)

  datatype History = History(entries: map<string, Entry>, callOrder: nat)

  datatype Event = Ran(exec: Exec) | Cleared(resources: set<string>)

  const EMPTY := History(map[], 0)

  /** op_history_save. A new entry starts as if pending since time 0. */
  function Save(h: History, e: Exec): History {
    var text := e.key.Text();
    var was := if text in h.entries then h.entries[text]
               else Entry(e.key, 0, OCF_PENDING, e.target, 0, 0, e.digest, 0, 0);
    var now := was.(callId := h.callOrder, rc := e.rc, lastRun := e.at, digest := e.digest,
                    lastRcChange := if was.rc == e.rc then was.lastRcChange else e.noted,
                    graph := e.graph, action := e.action);
    History(h.entries[text := now], h.callOrder + 1)
  }

  /** op_history_delete for one resource, node_op_history_clear for those of a node. */
  function Clear(h: History, resources: set<string>): History {
    h.(entries := map t | t in h.entries && h.entries[t].key.res !in resources :: h.entries[t])
  }

  ghost predicate LogOk(log: seq<Event>) {
    forall i :: 0 <= i < |log| && log[i].Ran? ==> log[i].exec.key.Ok()
  }

  function After(log: seq<Event>): History {
    if log == [] then EMPTY
    else
      var h := After(log[..|log| - 1]);
      match log[|log| - 1]
      case Ran(e) => Save(h, e)
      case Cleared(rs) => Clear(h, rs)
  }

  // ---- The same, read off the log directly ----

  /** The executions of one operation since its resource was last cleared, oldest first. */
  function Mine(log: seq<Event>, k: Key): seq<Exec> {
    if log == [] then []
    else
      var before := Mine(log[..|log| - 1], k);
      match log[|log| - 1]
      case Ran(e) => if e.key == k then before + [e] else before
      case Cleared(rs) => if k.res in rs then [] else before
  }

  /** How many executions have completed. */
  function Calls(log: seq<Event>): nat {
    if log == [] then 0 else Calls(log[..|log| - 1]) + if log[|log| - 1].Ran? then 1 else 0
  }

  /** How many executions completed before the latest one of `k`. */
  function LatestCall(log: seq<Event>, k: Key): nat {
    if log == [] then 0
    else
      var last, before := log[|log| - 1], log[..|log| - 1];
      if last.Ran? && last.exec.key == k then Calls(before) else LatestCall(before, k)
  }

  /** From `i` on all executions ended with the same code, and the one before `i` did not. */
  ghost predicate RunStarts(runs: seq<Exec>, i: nat) {
    && i < |runs|
    && (forall j :: i <= j < |runs| ==> runs[j].rc == runs[|runs| - 1].rc)
    && (i > 0 ==> runs[i - 1].rc != runs[|runs| - 1].rc)
  }

  /** `entry` is the summary of `runs`: the latest run's result, and the time its code began. */
  ghost predicate Summarises(entry: Entry, runs: seq<Exec>, k: Key, call: nat) {
    && runs != []
    && var last := runs[|runs| - 1];
    && entry.key == k && entry.callId == call && entry.target == runs[0].target
    && entry.rc == last.rc && entry.lastRun == last.at && entry.digest == last.digest
    && entry.graph == last.graph && entry.action == last.action
    && exists i: nat :: RunStarts(runs, i)
         && entry.lastRcChange == if i == 0 && last.rc == OCF_PENDING then 0 else runs[i].noted
  }

  /** An operation has an entry exactly when it ran since its resource was last cleared. */
  ghost predicate Reflects(h: History, log: seq<Event>, k: Key)
    requires k.Ok()
  {
    if Mine(log, k) == [] then k.Text() !in h.entries
    else k.Text() in h.entries && Summarises(h.entries[k.Text()], Mine(log, k), k, LatestCall(log, k))
  }

  lemma SaveReflects(h: History, log: seq<Event>, e: Exec)
    requires e.key.Ok() && Reflects(h, log, e.key) && h.callOrder == Calls(log)
    ensures Reflects(Save(h, e), log + [Ran(e)], e.key)
  {
    var k, longer := e.key, log + [Ran(e)];
    assert longer[..|longer| - 1] == log;
    var runs := Mine(log, k);
    var more := runs + [e];
    if runs == [] {
      assert RunStarts(more, 0);
    } else {
      var was := h.entries[k.Text()];
      var i: nat :| RunStarts(runs, i)
            && was.lastRcChange == if i == 0 && runs[|runs| - 1].rc == OCF_PENDING then 0 else runs[i].noted;
      if was.rc == e.rc {
        assert RunStarts(more, i) && more[i] == runs[i];
      } else {
        assert RunStarts(more, |runs|);
      }
    }
  }

  /** The history map is the fold of the log, for every operation. */
  lemma {:induction false} HistoryIsFold(log: seq<Event>, k: Key)
    requires LogOk(log) && k.Ok()
    ensures Reflects(After(log), log, k) && After(log).callOrder == Calls(log)
  {
    if log != [] {
      var before, last := log[..|log| - 1], log[|log| - 1];
      HistoryIsFold(before, k);
      assert before + [last] == log;
      match last
      case Ran(e) =>
        if e.key == k {
          SaveReflects(After(before), before, e);
        } else if e.key.Text() == k.Text() {
          KeysNeverCollide(e.key, k);
        }
      case Cleared(_) =>
    }
  }

  /** Nothing else is in the map: every entry is filed under the key it is about. */
  lemma {:induction false} NothingElse(log: seq<Event>, text: string)
    requires LogOk(log) && text in After(log).entries
    ensures var k := After(log).entries[text].key; k.Ok() && k.Text() == text && Mine(log, k) != []
  {
    var before, last := log[..|log| - 1], log[|log| - 1];
    if last.Ran? && last.exec.key.Text() == text {
      var k := last.exec.key;
      HistoryIsFold(before, k);
      HistoryIsFold(log, k);
      assert Mine(log, k) == Mine(before, k) + [last.exec];
    } else {
      NothingElse(before, text);
      HistoryIsFold(log, After(before).entries[text].key);
    }
  }

  lemma {:induction false} CallsGrow(log: seq<Event>, k: Key)
    requires Mine(log, k) != []
    ensures LatestCall(log, k) < Calls(log)
  {
    if !(log[|log| - 1].Ran? && log[|log| - 1].exec.key == k) {
      CallsGrow(log[..|log| - 1], k);
    }
  }

  /** Call ids follow the order of execution: the operation that ran last has the largest one. */
  lemma LatestHasLargestId(log: seq<Event>, e: Exec, k: Key)
    requires LogOk(log) && e.key.Ok() && k.Ok() && k != e.key && Mine(log, k) != []
    ensures var entries := After(log + [Ran(e)]).entries;
            && e.key.Text() in entries && k.Text() in entries
            && entries[k.Text()].callId < entries[e.key.Text()].callId
  {
    var longer := log + [Ran(e)];
    assert longer[..|longer| - 1] == log;
    HistoryIsFold(longer, e.key);
    HistoryIsFold(longer, k);
    CallsGrow(log, k);
    assert Mine(longer, k) == Mine(log, k) && Mine(longer, e.key) == Mine(log, e.key) + [e];
  }

  lemma {:induction false} LatestCallsDiffer(log: seq<Event>, k: Key, k': Key)
    requires Mine(log, k) != [] && Mine(log, k') != [] && k != k'
    ensures LatestCall(log, k) != LatestCall(log, k')
  {
    var before, last := log[..|log| - 1], log[|log| - 1];
    if last.Ran? && last.exec.key == k {
      CallsGrow(before, k');
    } else if last.Ran? && last.exec.key == k' {
      CallsGrow(before, k);
    } else {
      LatestCallsDiffer(before, k, k');
    }
  }

  /** No two entries of the map have the same call id. */
  lemma CallIdsDistinct(log: seq<Event>, text: string, text': string)
    requires LogOk(log) && text in After(log).entries && text' in After(log).entries && text != text'
    ensures After(log).entries[text].callId != After(log).entries[text'].callId
  {
    var k, k' := After(log).entries[text].key, After(log).entries[text'].key;
    NothingElse(log, text);
    NothingElse(log, text');
    HistoryIsFold(log, k);
    HistoryIsFold(log, k');
    LatestCallsDiffer(log, k, k');
  }

  /** op_history_map and call_order, updated in place. */
  class HistoryMap {
    var entries: map<string, Entry>
    var callOrder: nat

    ghost function View(): History
      reads this
    {
      History(entries, callOrder)
    }

    constructor ()
      ensures View() == EMPTY
    {
      entries, callOrder := map[], 0;
    }

    method OpHistorySave(e: Exec)
      modifies this
      ensures View() == Save(old(View()), e)
    {
      var buffer := e.key.Text();
      var oh;
      if buffer !in entries {
        oh := Entry(e.key, 0, OCF_PENDING, e.target, 0, 0, e.digest, 0, 0);
      } else {
        oh := entries[buffer];
        if oh.digest != e.digest {
          oh := oh.(digest := e.digest);
        }
      }
      if oh.rc != e.rc {
        oh := oh.(lastRcChange := e.noted, rc := e.rc);
      }
      oh := oh.(lastRun := e.at, callId := callOrder, graph := e.graph, action := e.action);
      callOrder := callOrder + 1;
      entries := entries[buffer := oh];
    }

    method Remove(text: string)
      modifies this
      ensures View() == History(old(entries) - {text}, old(callOrder))
    {
      entries := entries - {text};
    }
  }
}
