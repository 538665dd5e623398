/**
 * Replay protection of the agent handshake: a timestamp window of sixty seconds either way, and a table
 * of nonces that each live for two minutes. Times are whole seconds, the precision of the column.
 */
module NonceTable {
  import opened Wrappers

  const MAX_SKEW: int := 60
  const NONCE_LIFETIME: int := 120
  const NONCE_COLUMN: nat := 160

  /** The fields of a hello that the verifier reads; the timestamp is None when it cannot be parsed. */
  datatype Hello = Hello(sessionToken: string, timestamp: Option<int>, nonce: string)

  /** Answers of the cryptographic and session checks: decoded proof, token hash, live session, signature. */
  datatype Checks = Checks(proofDecodes: bool, tokenMatches: bool, sessionLive: bool, signatureValid: bool)

  /** The three clock reads of one call: the skew test, the purge and the insert. */
  datatype Reads = Reads(skew: int, purge: int, insert: int)

  type Key = (string, string)
  type Table = map<Key, int>

  predicate NonceChar(c: char) {
    'A' <= c <= 'Z' || 'a' <= c <= 'z' || '0' <= c <= '9' || c == '_' || c == '-'
  }

  predicate PlainNonce(s: string) {
    24 <= |s| <= 160 && forall i | 0 <= i < |s| :: NonceChar(s[i])
  }

  /** The pattern's final `$` also matches before one trailing line feed. */
  predicate NoncePattern(s: string) {
    PlainNonce(s) || (s != [] && s[|s| - 1] == '\n' && PlainNonce(s[..|s| - 1]))
  }

  function Abs(x: int): nat {
    if x < 0 then -x else x
  }

  /** Everything tested before the table is touched. */
  predicate Presentable(hello: Hello, checks: Checks, now: int) {
    && hello.sessionToken != ""
    && hello.timestamp.Some? && Abs(now - hello.timestamp.value) <= MAX_SKEW
    && NoncePattern(hello.nonce) && checks.proofDecodes
    && checks.tokenMatches
    && checks.sessionLive
    && checks.signatureValid
  }

  function Unexpired(table: Table, now: int): Table {
    map k | k in table && table[k] > now :: table[k]
  }

  /** The insert fails on a duplicate key, and on a value longer than the column. */
  predicate Insertable(table: Table, key: Key) {
    key !in table && |key.1| <= NONCE_COLUMN
  }

  datatype Call = Call(agentId: string, hello: Hello, checks: Checks, clock: Reads) {
    function Key(): Key {
      (agentId, hello.nonce)
    }
  }

  predicate Accepts(table: Table, call: Call) {
    && Presentable(call.hello, call.checks, call.clock.skew)
    && Insertable(Unexpired(table, call.clock.purge), call.Key())
  }

  function Apply(table: Table, call: Call): Table {
    if !Presentable(call.hello, call.checks, call.clock.skew) then table
    else
      var live := Unexpired(table, call.clock.purge);
      if Insertable(live, call.Key()) then live[call.Key() := call.clock.insert + NONCE_LIFETIME] else live
  }

  /** The verifier together with the database table it owns. */
  class AgentProofVerifier {
    var nonces: Table

    constructor ()
      ensures nonces == map[]
    {
      nonces := map[];
    }

    method Verify(call: Call) returns (accepted: bool)
      modifies this
      ensures accepted <==> Accepts(old(nonces), call)
      ensures nonces == Apply(old(nonces), call)
    {
      var hello, checks := call.hello, call.checks;
      if hello.sessionToken == "" || hello.timestamp.None?
         || Abs(call.clock.skew - hello.timestamp.value) > MAX_SKEW {
        return false;
      }
      if !NoncePattern(hello.nonce) || !checks.proofDecodes {
        return false;
      }
      if !checks.tokenMatches {
        return false;
      }
      if !checks.sessionLive {
        return false;
      }
      if !checks.signatureValid {
        return false;
      }
      nonces := Unexpired(nonces, call.clock.purge);
      if Insertable(nonces, call.Key()) {
        nonces := nonces[call.Key() := call.clock.insert + NONCE_LIFETIME];
        return true;
      }
      return false;
    }
  }

  // Runs

  function After(table: Table, run: seq<Call>): Table
    decreases |run|
  {
    if run == [] then table else After(Apply(table, run[0]), run[1..])
  }

  predicate AcceptedAt(run: seq<Call>, i: nat)
    requires i < |run|
  {
    Accepts(After(map[], run[..i]), run[i])
  }

  /**
   * The clock never goes back within a call, and one call's transaction ends before the next one's begins. The
   * tests before the transaction may run while other calls do.
   */
  ghost predicate Serial(run: seq<Call>) {
    && (forall i | 0 <= i < |run| :: run[i].clock.skew <= run[i].clock.purge <= run[i].clock.insert)
    && (forall i, j | 0 <= i < j < |run| :: run[i].clock.insert <= run[j].clock.purge)
  }

  ghost predicate SingleRead(run: seq<Call>) {
    forall i | 0 <= i < |run| :: run[i].clock.skew == run[i].clock.purge == run[i].clock.insert
  }

  lemma {:induction false} AfterAppend(table: Table, a: seq<Call>, b: seq<Call>)
    ensures After(table, a + b) == After(After(table, a), b)
    decreases |a|
  {
    if a == [] {
      assert a + b == b;
    } else {
      assert (a + b)[0] == a[0] && (a + b)[1..] == a[1..] + b;
      AfterAppend(Apply(table, a[0]), a[1..], b);
    }
  }

  /** A stored nonce stays, with its expiry, until some call purges at or after that expiry. */
  lemma {:induction false} NonceSurvives(table: Table, run: seq<Call>, key: Key, expiry: int)
    requires key in table && table[key] == expiry
    requires forall i | 0 <= i < |run| :: run[i].clock.purge < expiry
    ensures key in After(table, run) && After(table, run)[key] == expiry
    decreases |run|
  {
    if run != [] {
      assert run[0].clock.purge < expiry;
      NonceSurvives(Apply(table, run[0]), run[1..], key, expiry);
    }
  }

  /**
   * Over every run, two acceptances of the same agent and nonce are so far apart
   * that the second purges at least two minutes after the first inserted.
   */
  lemma AcceptancesAreTwoMinutesApart(run: seq<Call>, i: nat, j: nat)
    requires Serial(run) && i < j < |run|
    requires run[i].Key() == run[j].Key() && AcceptedAt(run, i) && AcceptedAt(run, j)
    ensures run[j].clock.purge >= run[i].clock.insert + NONCE_LIFETIME
  {
    var key, expiry := run[i].Key(), run[i].clock.insert + NONCE_LIFETIME;
    if run[j].clock.purge < expiry {
      var before, middle := run[..i + 1], run[i + 1..j];
      assert before == run[..i] + [run[i]] && run[..j] == before + middle;
      AfterAppend(map[], run[..i], [run[i]]);
      AfterAppend(map[], before, middle);
      var table := After(map[], run[..i]);
      assert After(table, [run[i]]) == Apply(table, run[i]);
      forall k | 0 <= k < |middle| ensures middle[k].clock.purge < expiry {
        assert middle[k] == run[i + 1 + k];
      }
      NonceSurvives(After(map[], before), middle, key, expiry);
      assert false;
    }
  }

  /** What the table holds of a key was put there by an acceptance. */
  lemma {:induction false} HeldByAcceptance(run: seq<Call>, n: nat, key: Key) returns (i: nat)
    requires n <= |run| && key in After(map[], run[..n])
    ensures i < n && run[i].Key() == key && AcceptedAt(run, i)
    ensures After(map[], run[..n])[key] == run[i].clock.insert + NONCE_LIFETIME
  {
    assert n > 0;
    var call, before := run[n - 1], After(map[], run[..n - 1]);
    assert run[..n] == run[..n - 1] + [call];
    AfterAppend(map[], run[..n - 1], [call]);
    assert After(before, [call]) == Apply(before, call);
    if Accepts(before, call) && call.Key() == key {
      i := n - 1;
    } else {
      i := HeldByAcceptance(run, n - 1, key);
    }
  }

  /**
   * In every run, a call whose hello passes the tests is accepted exactly when it purges at least two minutes after
   * the insert of every earlier acceptance of its agent and nonce.
   */
  lemma AcceptedIff(run: seq<Call>, j: nat)
    requires Serial(run) && j < |run|
    requires Presentable(run[j].hello, run[j].checks, run[j].clock.skew) && |run[j].hello.nonce| <= NONCE_COLUMN
    ensures AcceptedAt(run, j)
            <==> forall i | 0 <= i < j && run[i].Key() == run[j].Key() && AcceptedAt(run, i) ::
                   run[j].clock.purge >= run[i].clock.insert + NONCE_LIFETIME
  {
    if AcceptedAt(run, j) {
      forall i | 0 <= i < j && run[i].Key() == run[j].Key() && AcceptedAt(run, i)
        ensures run[j].clock.purge >= run[i].clock.insert + NONCE_LIFETIME
      {
        AcceptancesAreTwoMinutesApart(run, i, j);
      }
    } else {
      var i := HeldByAcceptance(run, j, run[j].Key());
      assert run[j].clock.purge < run[i].clock.insert + NONCE_LIFETIME;
    }
  }

  /**
   * With one clock read per call, the same hello can be accepted twice only at exactly sixty seconds
   * before its timestamp and sixty seconds after it.
   */
  lemma ReplayOnlyAtBothEdges(run: seq<Call>, i: nat, j: nat)
    requires Serial(run) && SingleRead(run) && i < j < |run|
    requires run[i].agentId == run[j].agentId && run[i].hello == run[j].hello
    requires AcceptedAt(run, i) && AcceptedAt(run, j)
    ensures run[i].hello.timestamp.Some?
    ensures run[i].clock.skew == run[i].hello.timestamp.value - MAX_SKEW
    ensures run[j].clock.skew == run[i].hello.timestamp.value + MAX_SKEW
  {
    AcceptancesAreTwoMinutesApart(run, i, j);
  }

  /** Hence no run accepts the same hello three times. */
  lemma NeverAcceptedThrice(run: seq<Call>, i: nat, j: nat, k: nat)
    requires Serial(run) && SingleRead(run) && i < j < k < |run|
    requires run[i].agentId == run[j].agentId == run[k].agentId
    requires run[i].hello == run[j].hello == run[k].hello
    ensures !(AcceptedAt(run, i) && AcceptedAt(run, j) && AcceptedAt(run, k))
  {
    if AcceptedAt(run, i) && AcceptedAt(run, j) && AcceptedAt(run, k) {
      ReplayOnlyAtBothEdges(run, i, j);
      ReplayOnlyAtBothEdges(run, j, k);
      assert false;
    }
  }

  /**
   * With the clock read anew at each step, a replay must stall between its skew test and its purge for
   * whatever part of the two minutes the skew window does not already cover.
   */
  lemma ReplayNeedsAStall(run: seq<Call>, i: nat, j: nat)
    requires Serial(run) && i < j < |run|
    requires run[i].agentId == run[j].agentId && run[i].hello == run[j].hello
    requires AcceptedAt(run, i) && AcceptedAt(run, j)
    ensures run[i].hello.timestamp.Some?
    ensures var late := run[i].hello.timestamp.value + MAX_SKEW - run[j].clock.skew;
            var early := run[i].clock.insert - (run[i].hello.timestamp.value - MAX_SKEW);
            late >= 0 && early >= 0 && run[j].clock.purge - run[j].clock.skew >= late + early
  {
    AcceptancesAreTwoMinutesApart(run, i, j);
  }

  /**
   * And such a stall is enough: for every distance of the acceptances from the edges of the window there is a run
   * whose second call stalls for just the sum of both.
   */
  lemma StalledReplayIsAccepted(agentId: string, hello: Hello, early: nat, late: nat) returns (run: seq<Call>)
    requires hello.sessionToken != "" && hello.timestamp.Some? && PlainNonce(hello.nonce)
    requires early <= 2 * MAX_SKEW && late <= 2 * MAX_SKEW
    ensures |run| == 2 && Serial(run) && AcceptedAt(run, 0) && AcceptedAt(run, 1)
    ensures run[0].hello == run[1].hello == hello && run[0].agentId == run[1].agentId == agentId
    ensures run[0].clock.insert == hello.timestamp.value - MAX_SKEW + early
    ensures run[1].clock.skew == hello.timestamp.value + MAX_SKEW - late
    ensures run[1].clock.purge - run[1].clock.skew == late + early
  {
    var first, test := hello.timestamp.value - MAX_SKEW + early, hello.timestamp.value + MAX_SKEW - late;
    var second, ok := first + NONCE_LIFETIME, Checks(true, true, true, true);
    var a := Call(agentId, hello, ok, Reads(first, first, first));
    run := [a, Call(agentId, hello, ok, Reads(test, second, second))];
    assert run[..0] == [] && run[..1] == [a];
    assert After(map[], [a]) == Apply(map[], a);
    assert Apply(map[], a) == map[a.Key() := second];
  }

  // Transactions that overlap

  /** A statement of a transaction, with its clock reading. */
  datatype Statement = Purge(now: int) | Insert(key: Key, now: int)

  function Execute(table: Table, statement: Statement): Table {
    match statement
    case Purge(now) => Unexpired(table, now)
    case Insert(key, now) => if Insertable(table, key) then table[key := now + NONCE_LIFETIME] else table
  }

  function ExecuteAll(table: Table, statements: seq<Statement>): Table
    decreases |statements|
  {
    if statements == [] then table else ExecuteAll(Execute(table, statements[0]), statements[1..])
  }

  function Statements(call: Call): seq<Statement> {
    [Purge(call.clock.purge), Insert(call.Key(), call.clock.insert)]
  }

  /** A call that passes its tests runs its two statements, and is accepted when the insert finds no such key. */
  lemma CallIsItsStatements(table: Table, call: Call)
    requires Presentable(call.hello, call.checks, call.clock.skew)
    ensures ExecuteAll(table, Statements(call)) == Apply(table, call)
    ensures Accepts(table, call) <==> Insertable(Execute(table, Statements(call)[0]), call.Key())
  {
    var all := Statements(call);
    assert all[1..] == [all[1]] && all[1..][1..] == [];
    var live := Execute(table, all[0]);
    assert ExecuteAll(table, all) == ExecuteAll(live, [all[1]]);
    assert ExecuteAll(live, [all[1]]) == Execute(live, all[1]);
  }

  predicate Inserts(table: Table, statements: seq<Statement>, i: nat, key: Key)
    requires i < |statements|
  {
    statements[i].Insert? && statements[i].key == key && Insertable(ExecuteAll(table, statements[..i]), key)
  }

  ghost predicate InClockOrder(statements: seq<Statement>) {
    forall i, j | 0 <= i < j < |statements| :: statements[i].now <= statements[j].now
  }

  lemma {:induction false} ExecuteAppend(table: Table, a: seq<Statement>, b: seq<Statement>)
    ensures ExecuteAll(table, a + b) == ExecuteAll(ExecuteAll(table, a), b)
    decreases |a|
  {
    if a == [] {
      assert a + b == b;
    } else {
      assert (a + b)[0] == a[0] && (a + b)[1..] == a[1..] + b;
      ExecuteAppend(Execute(table, a[0]), a[1..], b);
    }
  }

  lemma {:induction false} StatementsKeep(table: Table, statements: seq<Statement>, key: Key)
    requires key in table && forall i | 0 <= i < |statements| :: statements[i].now < table[key]
    ensures key in ExecuteAll(table, statements)
    decreases |statements|
  {
    if statements != [] {
      assert statements[0].now < table[key];
      assert forall i | 0 <= i < |statements| - 1 :: statements[1..][i] == statements[i + 1];
      StatementsKeep(Execute(table, statements[0]), statements[1..], key);
    }
  }

  /** However the statements of different transactions alternate, two inserts of one key are two minutes apart. */
  lemma InsertsAreTwoMinutesApart(table: Table, statements: seq<Statement>, i: nat, j: nat, key: Key)
    requires InClockOrder(statements) && i < j < |statements|
    requires Inserts(table, statements, i, key) && Inserts(table, statements, j, key)
    ensures statements[j].now >= statements[i].now + NONCE_LIFETIME
  {
    var before, middle := statements[..i + 1], statements[i + 1..j];
    var stored := ExecuteAll(table, before);
    assert before == statements[..i] + [statements[i]] && statements[..j] == before + middle;
    ExecuteAppend(table, statements[..i], [statements[i]]);
    ExecuteAppend(table, before, middle);
    assert stored == Execute(ExecuteAll(table, statements[..i]), statements[i]);
    if statements[j].now < statements[i].now + NONCE_LIFETIME {
      forall k | 0 <= k < |middle| ensures middle[k].now < stored[key] {
        assert middle[k] == statements[i + 1 + k];
      }
      StatementsKeep(stored, middle, key);
      assert false;
    }
  }

  /** Both edges really are reachable: one hello, presented at either end of its window, passes twice. */
  lemma EdgesAreReachable(agentId: string, hello: Hello)
    returns (run: seq<Call>)
    requires hello.sessionToken != "" && hello.timestamp.Some? && PlainNonce(hello.nonce)
    ensures |run| == 2 && Serial(run) && SingleRead(run)
    ensures run[0].hello == run[1].hello == hello && run[0].agentId == run[1].agentId == agentId
    ensures AcceptedAt(run, 0) && AcceptedAt(run, 1)
  {
    var t, ok := hello.timestamp.value, Checks(true, true, true, true);
    var a := Call(agentId, hello, ok, Reads(t - MAX_SKEW, t - MAX_SKEW, t - MAX_SKEW));
    var b := Call(agentId, hello, ok, Reads(t + MAX_SKEW, t + MAX_SKEW, t + MAX_SKEW));
    run := [a, b];
    assert run[..0] == [] && run[..1] == [a];
    assert After(map[], [a]) == Apply(map[], a);
    assert Apply(map[], a) == map[a.Key() := t + MAX_SKEW];
  }
}
