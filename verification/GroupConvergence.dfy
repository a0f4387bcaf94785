/** A consumer group rebalancing one topic with no coordination: members run passes in any order, from any
    tables, each on the same view of queues and client ids in an order of its own. */
module GroupConvergence {
  import opened Allocation
  import opened Ownership
  import opened Rebalance

  /** One member's pass: what it saw, what its sort and allocate gave it, and what it met outside. */
  datatype Step = Step(client: string, view: GroupView, mine: seq<Queue>, env: Env)

  /** The queues each member has requests for. */
  type Tables = map<string, set<Queue>>

  function TableOf(tables: Tables, client: string): set<Queue> {
    if client in tables then tables[client] else {}
  }

  function After(tables: Tables, topic: string, s: Step): Tables {
    tables[s.client := FinalKeys(TableOf(tables, s.client), topic, s.mine, s.env)]
  }

  function RunSteps(tables: Tables, topic: string, steps: seq<Step>): Tables {
    if steps == [] then tables else
      var n := |steps| - 1;
      After(RunSteps(tables, topic, steps[..n]), topic, steps[n])
  }

  /** The topic's queues that a member holds. */
  function Held(tables: Tables, topic: string, client: string): set<Queue> {
    set q | q in TableOf(tables, client) && q.topic == topic
  }

  /** A group of distinct clients, a duplicate-free queue list of the topic, and passes on that view. */
  ghost predicate Group(topic: string, queues: seq<Queue>, clients: seq<string>, steps: seq<Step>) {
    && Distinct(queues) && Distinct(clients) && clients != []
    && (forall q :: q in queues ==> q.topic == topic)
    && (forall k :: 0 <= k < |steps| ==> OnView(steps[k], queues, clients))
  }

  ghost predicate OnView(s: Step, queues: seq<Queue>, clients: seq<string>) {
    s.client in clients && SameView(s.view, queues, clients) && Allocated(s.client, s.view, s.mine)
  }

  /** Step k is the client's last pass. */
  ghost predicate LastPass(steps: seq<Step>, client: string, k: nat) {
    && k < |steps| && steps[k].client == client
    && forall j :: k < j < |steps| ==> steps[j].client != client
  }

  ghost predicate Ran(steps: seq<Step>, client: string) {
    exists k :: 0 <= k < |steps| && steps[k].client == client
  }

  lemma {:induction false} LastPassExists(steps: seq<Step>, client: string) returns (last: nat)
    requires Ran(steps, client)
    ensures LastPass(steps, client, last)
  {
    var n := |steps| - 1;
    if steps[n].client == client {
      last := n;
    } else {
      var k :| 0 <= k < |steps| && steps[k].client == client;
      assert steps[..n][k].client == client;
      last := LastPassExists(steps[..n], client);
    }
  }

  /** The client's last pass got every start offset and pull task it needed. */
  ghost predicate EndsComplete(tables: Tables, topic: string, steps: seq<Step>, client: string) {
    exists k: nat :: LastPass(steps, client, k)
      && FullySuccessful(TableOf(RunSteps(tables, topic, steps[..k]), client), topic, steps[k].mine, steps[k].env)
  }

  lemma MineIsOwned(s: Step, queues: seq<Queue>, clients: seq<string>)
    requires OnView(s, queues, clients)
    ensures s.mine == OwnedQueues(s.client, queues, clients)
  {
    AllocatedFromSorted(s.client, s.view, s.mine, queues, clients);
  }

  lemma OwnedWithin(client: string, queues: seq<Queue>, clients: seq<string>, q: Queue)
    requires q in OwnedQueues(client, queues, clients)
    ensures q in queues
  {
    QueueOrder();
    SortIsSort(queues, QueueLess);
    OwnedInList(client, Sort(queues, QueueLess), Sort(clients, StringLess), q);
    assert q in multiset(Sort(queues, QueueLess));
  }

  /** Passes of other members do not touch a member's table. */
  lemma {:induction false} OthersLeaveAlone(tables: Tables, topic: string, steps: seq<Step>, client: string, k: nat)
    requires k <= |steps| && forall j :: k <= j < |steps| ==> steps[j].client != client
    ensures TableOf(RunSteps(tables, topic, steps), client) == TableOf(RunSteps(tables, topic, steps[..k]), client)
    decreases |steps|
  {
    if k < |steps| {
      var n := |steps| - 1;
      OthersLeaveAlone(tables, topic, steps[..n], client, k);
      assert steps[..n][..k] == steps[..k];
    } else {
      assert steps[..k] == steps;
    }
  }

  /** What a member holds in the end was decided by its last pass. */
  lemma DecidedByLastPass(tables: Tables, topic: string, steps: seq<Step>, client: string, k: nat)
    requires LastPass(steps, client, k)
    ensures TableOf(RunSteps(tables, topic, steps), client)
      == FinalKeys(TableOf(RunSteps(tables, topic, steps[..k]), client), topic, steps[k].mine, steps[k].env)
  {
    OthersLeaveAlone(tables, topic, steps, client, k + 1);
    assert steps[..k + 1][..k] == steps[..k];
  }

  /** After its last pass a member holds no more of the topic than its share, and all of it if and only if
      that pass was complete. */
  lemma HoldsShare(tables: Tables, topic: string, queues: seq<Queue>, clients: seq<string>, steps: seq<Step>,
                   client: string, k: nat)
    requires Group(topic, queues, clients, steps) && LastPass(steps, client, k)
    ensures var mine := OwnedQueues(client, queues, clients);
      var held := Held(RunSteps(tables, topic, steps), topic, client);
      && (forall q :: q in held ==> q in mine)
      && ((forall q :: q in mine ==> q in held) <==> EndsComplete(tables, topic, steps, client))
  {
    var keys, mine, env := TableOf(RunSteps(tables, topic, steps[..k]), client), steps[k].mine, steps[k].env;
    assert OnView(steps[k], queues, clients);
    MineIsOwned(steps[k], queues, clients);
    DecidedByLastPass(tables, topic, steps, client, k);
    forall q | q in mine ensures q.topic == topic {
      OwnedWithin(client, queues, clients, q);
    }
    forall q ensures q in FinalKeys(keys, topic, mine, env) && q.topic == topic ==> q in mine {
      PassSpecification(keys, topic, mine, env, q);
    }
    HoldsAllIff(keys, topic, mine, env);
    assert forall j :: LastPass(steps, client, j) ==> j == k;
  }

  /** Group safety: once every member has run a pass on the same view, even a failing one, no queue of the
      topic is held by two members, in whatever order the passes ran and whatever the tables held before. */
  lemma NoQueueHeldTwice(tables: Tables, topic: string, queues: seq<Queue>, clients: seq<string>, steps: seq<Step>,
                         a: string, b: string)
    requires Group(topic, queues, clients, steps) && a in clients && b in clients && a != b
    requires Ran(steps, a) && Ran(steps, b)
    ensures Held(RunSteps(tables, topic, steps), topic, a) !! Held(RunSteps(tables, topic, steps), topic, b)
  {
    var i := LastPassExists(steps, a);
    var j := LastPassExists(steps, b);
    HoldsShare(tables, topic, queues, clients, steps, a, i);
    HoldsShare(tables, topic, queues, clients, steps, b, j);
    forall q | q in Held(RunSteps(tables, topic, steps), topic, a)
      ensures q !in Held(RunSteps(tables, topic, steps), topic, b)
    {
      OwnedWithin(a, queues, clients, q);
      var owner := OwnerOf(queues, clients, q);
    }
  }

  ghost predicate HeldBySome(tables: Tables, topic: string, clients: seq<string>, q: Queue) {
    exists c :: c in clients && q in Held(tables, topic, c)
  }

  /** Group convergence: once every member has run a pass on the same view, the members' tables together
      cover the topic's queues if and only if every member's last pass was complete. */
  lemma ConvergesExactly(tables: Tables, topic: string, queues: seq<Queue>, clients: seq<string>, steps: seq<Step>)
    requires Group(topic, queues, clients, steps)
    requires forall c :: c in clients ==> Ran(steps, c)
    ensures (forall q :: q in queues ==> HeldBySome(RunSteps(tables, topic, steps), topic, clients, q))
      <==> (forall c :: c in clients ==> EndsComplete(tables, topic, steps, c))
  {
    var end := RunSteps(tables, topic, steps);
    forall c | c in clients
      ensures forall q :: q in Held(end, topic, c) ==> q in OwnedQueues(c, queues, clients)
      ensures (forall q :: q in OwnedQueues(c, queues, clients) ==> q in Held(end, topic, c))
        <==> EndsComplete(tables, topic, steps, c)
    {
      var k := LastPassExists(steps, c);
      HoldsShare(tables, topic, queues, clients, steps, c, k);
    }
    if forall c :: c in clients ==> EndsComplete(tables, topic, steps, c) {
      forall q | q in queues ensures HeldBySome(end, topic, clients, q) {
        var owner := OwnerOf(queues, clients, q);
        assert q in Held(end, topic, owner);
      }
    }
    if forall q :: q in queues ==> HeldBySome(end, topic, clients, q) {
      forall c, q | c in clients && q in OwnedQueues(c, queues, clients) ensures q in Held(end, topic, c) {
        OwnedWithin(c, queues, clients, q);
        var owner := OwnerOf(queues, clients, q);
        assert HeldBySome(end, topic, clients, q);
      }
    }
  }
}
