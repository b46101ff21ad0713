/** The file mailbox: per agent an inbox, an ack directory and a deadletter
    directory. A directory is modelled as the sequence of its files kept in
    file-name order, the order in which `consume` lists them. */
module FileMailbox {
  import opened Wrappers
  import opened Text
  import opened StringOrder
  import opened EnvelopePolicy

  datatype File<T> = File(name: string, content: T)

  /** The files of one directory, in ascending name order. */
  type Dir<T> = seq<File<T>>

  /** A directory listing: strictly ascending names, hence no name twice. */
  predicate Ordered<T>(d: Dir<T>) {
    forall i, j :: 0 <= i < j < |d| ==> Less(d[i].name, d[j].name)
  }

  predicate Has<T>(d: Dir<T>, name: string) {
    exists i :: 0 <= i < |d| && d[i].name == name
  }

  /** The content of the file called `name`, if there is one. */
  function Find<T>(d: Dir<T>, name: string): (r: Option<T>)
    ensures r.Some? <==> Has(d, name)
  {
    if |d| == 0 then None
    else if d[0].name == name then Some(d[0].content)
    else
      assert forall i :: 1 <= i < |d| ==> d[i] == d[1..][i - 1];
      Find(d[1..], name)
  }

  /** Writes a file: an existing file of the same name is replaced, otherwise
      the file joins the listing at its place in name order. */
  function Put<T>(d: Dir<T>, f: File<T>): (r: Dir<T>)
    ensures f in r
    ensures forall g :: g in r ==> g == f || g in d
  {
    if |d| == 0 then [f]
    else if d[0].name == f.name then [f] + d[1..]
    else if Less(f.name, d[0].name) then [f] + d
    else [d[0]] + Put(d[1..], f)
  }

  /** Deletes the file called `name` (a rename away or an unlink). */
  function Remove<T>(d: Dir<T>, name: string): (r: Dir<T>)
    ensures forall i :: 0 <= i < |r| ==> r[i] in d && r[i].name != name
    ensures forall i :: 0 <= i < |d| && d[i].name != name ==> d[i] in r
  {
    if |d| == 0 then []
    else if d[0].name == name then Remove(d[1..], name)
    else [d[0]] + Remove(d[1..], name)
  }

  /** The files a listing filtered by `name.endsWith(".json")` shows. */
  function JsonFiles<T>(d: Dir<T>): (r: Dir<T>)
    ensures forall i :: 0 <= i < |r| ==> r[i] in d && EndsWith(r[i].name, ".json")
    ensures forall i :: 0 <= i < |d| && EndsWith(d[i].name, ".json") ==> d[i] in r
  {
    if |d| == 0 then []
    else if EndsWith(d[0].name, ".json") then [d[0]] + JsonFiles(d[1..])
    else JsonFiles(d[1..])
  }

  lemma {:induction false} PutOrdered<T>(d: Dir<T>, f: File<T>)
    requires Ordered(d)
    ensures Ordered(Put(d, f))
  {
    if |d| > 0 && d[0].name != f.name && !Less(f.name, d[0].name) {
      PutOrdered(d[1..], f);
      LessTotal(f.name, d[0].name);
      var r := Put(d, f);
      forall j | 1 <= j < |r| ensures Less(d[0].name, r[j].name) {
        assert r[j] in Put(d[1..], f);
      }
    }
    if |d| > 0 && Less(f.name, d[0].name) {
      forall j | 0 <= j < |d| ensures Less(f.name, d[j].name) {
        if j > 0 {
          LessTransitive(f.name, d[0].name, d[j].name);
        }
      }
    }
  }

  lemma {:induction false} RemoveOrdered<T>(d: Dir<T>, name: string)
    requires Ordered(d)
    ensures Ordered(Remove(d, name))
  {
    if |d| > 0 {
      RemoveOrdered(d[1..], name);
      var rest := Remove(d[1..], name);
      forall g | g in rest ensures Less(d[0].name, g.name) {
        var j :| 0 <= j < |d[1..]| && d[1..][j] == g;
        assert d[j + 1] == g;
      }
    }
  }

  lemma {:induction false} JsonFilesOrdered<T>(d: Dir<T>)
    requires Ordered(d)
    ensures Ordered(JsonFiles(d))
  {
    if |d| > 0 {
      JsonFilesOrdered(d[1..]);
      forall g | g in JsonFiles(d[1..]) ensures Less(d[0].name, g.name) {
        var j :| 0 <= j < |d[1..]| && d[1..][j] == g;
        assert d[j + 1] == g;
      }
    }
  }

  /** Writing `f` leaves every other name's file as it was. */
  lemma {:induction false} FindPut<T>(d: Dir<T>, f: File<T>, n: string)
    ensures Find(Put(d, f), n) == if n == f.name then Some(f.content) else Find(d, n)
  {
    if |d| > 0 && d[0].name != f.name && !Less(f.name, d[0].name) {
      FindPut(d[1..], f, n);
    }
  }

  /** Removing `name` leaves every other name's file as it was. */
  lemma {:induction false} FindRemove<T>(d: Dir<T>, name: string, n: string)
    ensures Find(Remove(d, name), n) == if n == name then None else Find(d, n)
  {
    if |d| > 0 {
      FindRemove(d[1..], name, n);
    }
  }

  lemma {:induction false} OrderedFirstAbsent<T>(d: Dir<T>, n: string)
    requires Ordered(d) && |d| > 0 && (n == d[0].name || Less(n, d[0].name))
    ensures !Has(d[1..], n)
  {
    forall j | 0 <= j < |d[1..]| ensures d[1..][j].name != n {
      assert d[1..][j] == d[j + 1];
      if n == d[0].name {
        LessIrreflexive(n);
      } else {
        LessTransitive(n, d[0].name, d[j + 1].name);
        LessIrreflexive(n);
      }
    }
  }

  lemma {:induction false} RemoveAbsent<T>(d: Dir<T>, name: string)
    requires !Has(d, name)
    ensures Remove(d, name) == d
  {
    if |d| > 0 {
      assert !Has(d[1..], name) by {
        forall j | 0 <= j < |d[1..]| ensures d[1..][j].name != name {
          assert d[1..][j] == d[j + 1];
        }
      }
      RemoveAbsent(d[1..], name);
    }
  }

  /** Writing a `.json` file under a new name makes one more file visible;
      overwriting an existing name does not. */
  lemma {:induction false} CountPut<T>(d: Dir<T>, f: File<T>)
    requires Ordered(d)
    ensures |JsonFiles(Put(d, f))|
         == |JsonFiles(d)| + (if EndsWith(f.name, ".json") && !Has(d, f.name) then 1 else 0)
  {
    if |d| == 0 {
    } else if d[0].name == f.name {
      assert Has(d, f.name);
      assert ([f] + d[1..])[1..] == d[1..];
    } else if Less(f.name, d[0].name) {
      OrderedFirstAbsent(d, f.name);
      assert ([f] + d)[1..] == d;
      assert !Has(d, f.name);
    } else {
      CountPut(d[1..], f);
      assert ([d[0]] + Put(d[1..], f))[1..] == Put(d[1..], f);
      assert Has(d, f.name) <==> Has(d[1..], f.name) by {
        if Has(d, f.name) {
          var j :| 0 <= j < |d| && d[j].name == f.name;
          assert d[1..][j - 1] == d[j];
        }
        if Has(d[1..], f.name) {
          var j :| 0 <= j < |d[1..]| && d[1..][j].name == f.name;
          assert d[j + 1] == d[1..][j];
        }
      }
    }
  }

  /** Deleting the `.json` file called `name` makes one file fewer visible. */
  lemma {:induction false} CountRemove<T>(d: Dir<T>, name: string)
    requires Ordered(d) && Has(d, name) && EndsWith(name, ".json")
    ensures |JsonFiles(Remove(d, name))| == |JsonFiles(d)| - 1
  {
    if d[0].name == name {
      OrderedFirstAbsent(d, name);
      RemoveAbsent(d[1..], name);
    } else {
      var j :| 0 <= j < |d| && d[j].name == name;
      assert d[1..][j - 1] == d[j];
      CountRemove(d[1..], name);
      assert ([d[0]] + Remove(d[1..], name))[1..] == Remove(d[1..], name);
    }
  }

  /** `slice(0, limit)` on a list of length n: a negative limit counts from the end. */
  function SliceEnd(n: nat, limit: int): (e: nat)
    ensures e <= n
    ensures 0 <= limit ==> e == if limit < n then limit else n
  {
    if limit < 0 then (if n + limit < 0 then 0 else n + limit)
    else if limit < n then limit
    else n
  }

  /** `Number.MAX_SAFE_INTEGER`, the limit `peek` passes to `consume`. */
  const MaxSafeInteger: int := 9007199254740991

  /** A message handed out by `consume`: which agent took it, the name of its
      file in that agent's inbox, and the envelope read back from the file. */
  datatype Consumed = Consumed(agentId: string, name: string, envelope: Envelope)

  /** The wrapper `nack` writes to the deadletter directory. */
  datatype DeadLetter = DeadLetter(reason: string, quarantinedAt: string, envelope: Envelope)

  /** The three directory trees; an agent without a directory has none of its files. */
  datatype Boxes = Boxes(
    inbox: map<string, Dir<Envelope>>,
    acked: map<string, Dir<Envelope>>,
    deadletter: map<string, Dir<DeadLetter>>)

  function DirOf<T>(m: map<string, Dir<T>>, agent: string): Dir<T> {
    if agent in m then m[agent] else []
  }

  ghost predicate BoxesOrdered(b: Boxes) {
    && (forall a :: a in b.inbox ==> Ordered(b.inbox[a]))
    && (forall a :: a in b.acked ==> Ordered(b.acked[a]))
    && (forall a :: a in b.deadletter ==> Ordered(b.deadletter[a]))
  }

  /** `${msg_id}--${Date.now()}--${randomUUID()}.json`. */
  function FileName(e: Envelope, ms: nat, uuid: string): (name: string)
    ensures EndsWith(name, ".json")
    ensures StartsWith(name, e.msgId + "--")
  {
    var name := e.msgId + "--" + NatToString(ms) + "--" + uuid + ".json";
    assert name[|name| - 5..] == ".json";
    assert name[..|e.msgId + "--"|] == e.msgId + "--";
    name
  }

  function PublishBoxes(b: Boxes, e: Envelope, ms: nat, uuid: string): Boxes {
    b.(inbox := b.inbox[e.to := Put(DirOf(b.inbox, e.to), File(FileName(e, ms, uuid), Stored(e)))])
  }

  /** The first `limit` `.json` files of the inbox, in name order. */
  function ConsumeBoxes(b: Boxes, agent: string, limit: int): (r: seq<Consumed>)
    ensures |r| == SliceEnd(|JsonFiles(DirOf(b.inbox, agent))|, limit)
  {
    var files := JsonFiles(DirOf(b.inbox, agent));
    var n := SliceEnd(|files|, limit);
    seq(n, i requires 0 <= i < n => Consumed(agent, files[i].name, files[i].content))
  }

  function AckBoxes(b: Boxes, item: Consumed): Boxes
    requires Has(DirOf(b.inbox, item.agentId), item.name)
  {
    var a := item.agentId;
    var content := Find(DirOf(b.inbox, a), item.name).value;
    b.(inbox := b.inbox[a := Remove(DirOf(b.inbox, a), item.name)],
       acked := b.acked[a := Put(DirOf(b.acked, a), File(item.name, content))])
  }

  function NackBoxes(b: Boxes, item: Consumed, reason: string, now: string): Boxes
    requires Has(DirOf(b.inbox, item.agentId), item.name)
  {
    var a := item.agentId;
    b.(inbox := b.inbox[a := Remove(DirOf(b.inbox, a), item.name)],
       deadletter := b.deadletter[a := Put(DirOf(b.deadletter, a),
                                           File(item.name, DeadLetter(reason, now, Stored(item.envelope))))])
  }

  function DeadletterCountOf(b: Boxes, agent: string): nat {
    |JsonFiles(DirOf(b.deadletter, agent))|
  }

  /** Publishing stores the envelope as the file reads it back, under a fresh
      `.json` name in the addressee's inbox; nothing else changes. When the
      name is new, exactly one more message is pending there. */
  lemma PublishEffect(b: Boxes, e: Envelope, ms: nat, uuid: string, agent: string)
    requires BoxesOrdered(b)
    ensures var b2 := PublishBoxes(b, e, ms, uuid);
      && BoxesOrdered(b2)
      && Find(DirOf(b2.inbox, e.to), FileName(e, ms, uuid)) == Some(Stored(e))
      && (agent != e.to ==> DirOf(b2.inbox, agent) == DirOf(b.inbox, agent))
      && b2.acked == b.acked && b2.deadletter == b.deadletter
      && (!Has(DirOf(b.inbox, e.to), FileName(e, ms, uuid)) ==>
            |JsonFiles(DirOf(b2.inbox, e.to))| == |JsonFiles(DirOf(b.inbox, e.to))| + 1)
  {
    var f := File(FileName(e, ms, uuid), Stored(e));
    PutOrdered(DirOf(b.inbox, e.to), f);
    FindPut(DirOf(b.inbox, e.to), f, f.name);
    CountPut(DirOf(b.inbox, e.to), f);
  }

  /** Publishing one envelope twice, in the same millisecond but with two
      different UUIDs, leaves two pending copies. */
  lemma PublishTwiceTwoEntries(b: Boxes, e: Envelope, ms: nat, u1: string, u2: string)
    requires BoxesOrdered(b)
    requires u1 != u2
    requires !Has(DirOf(b.inbox, e.to), FileName(e, ms, u1))
    requires !Has(DirOf(b.inbox, e.to), FileName(e, ms, u2))
    ensures var b2 := PublishBoxes(PublishBoxes(b, e, ms, u1), e, ms, u2);
      && |JsonFiles(DirOf(b2.inbox, e.to))| == |JsonFiles(DirOf(b.inbox, e.to))| + 2
      && Find(DirOf(b2.inbox, e.to), FileName(e, ms, u1)) == Some(Stored(e))
      && Find(DirOf(b2.inbox, e.to), FileName(e, ms, u2)) == Some(Stored(e))
  {
    var n1, n2 := FileName(e, ms, u1), FileName(e, ms, u2);
    var p := e.msgId + "--" + NatToString(ms) + "--";
    assert n1 != n2 by {
      assert n1 == p + u1 + ".json" && n2 == p + u2 + ".json";
      if |u1| == |u2| {
        var k :| 0 <= k < |u1| && u1[k] != u2[k];
        assert n1[|p| + k] == u1[k] && n2[|p| + k] == u2[k];
      }
    }
    var b1 := PublishBoxes(b, e, ms, u1);
    PublishEffect(b, e, ms, u1, e.to);
    FindPut(DirOf(b.inbox, e.to), File(n1, Stored(e)), n2);
    PublishEffect(b1, e, ms, u2, e.to);
    FindPut(DirOf(b1.inbox, e.to), File(n2, Stored(e)), n1);
  }

  /** `consume(a, k)` for k >= 0 hands out the first min(k, pending) files in
      ascending name order, each together with its agent and its content. */
  lemma ConsumeFirst(b: Boxes, agent: string, k: int)
    requires BoxesOrdered(b) && 0 <= k
    ensures var pending := JsonFiles(DirOf(b.inbox, agent));
      var r := ConsumeBoxes(b, agent, k);
      && |r| == (if k < |pending| then k else |pending|)
      && (forall i :: 0 <= i < |r| ==>
            r[i] == Consumed(agent, pending[i].name, pending[i].content)
            && Find(DirOf(b.inbox, agent), r[i].name) == Some(r[i].envelope))
      && (forall i, j :: 0 <= i < j < |r| ==> Less(r[i].name, r[j].name))
  {
    var d := DirOf(b.inbox, agent);
    var pending := JsonFiles(d);
    JsonFilesOrdered(d);
    forall i | 0 <= i < |pending| ensures Find(d, pending[i].name) == Some(pending[i].content) {
      FindOrdered(d, pending[i]);
    }
  }

  /** In a listing, a file's name finds that file. */
  lemma {:induction false} FindOrdered<T>(d: Dir<T>, f: File<T>)
    requires Ordered(d) && f in d
    ensures Find(d, f.name) == Some(f.content)
  {
    if d[0] != f {
      assert f in d[1..];
      var j :| 0 <= j < |d[1..]| && d[1..][j] == f;
      assert d[j + 1] == f;
      assert d[0].name != f.name by {
        LessIrreflexive(f.name);
      }
      FindOrdered(d[1..], f);
    }
  }

  /** `peek(a)` is `consume` without a bound: every pending message taken,
      whenever there are fewer than 2^53 of them. */
  lemma PeekAll(b: Boxes, agent: string)
    requires |JsonFiles(DirOf(b.inbox, agent))| <= MaxSafeInteger
    ensures |ConsumeBoxes(b, agent, MaxSafeInteger)| == |JsonFiles(DirOf(b.inbox, agent))|
  {
  }

  lemma AckOrdered(b: Boxes, item: Consumed)
    requires BoxesOrdered(b)
    requires Has(DirOf(b.inbox, item.agentId), item.name)
    ensures BoxesOrdered(AckBoxes(b, item))
  {
    var a := item.agentId;
    var content := Find(DirOf(b.inbox, a), item.name).value;
    RemoveOrdered(DirOf(b.inbox, a), item.name);
    PutOrdered(DirOf(b.acked, a), File(item.name, content));
  }

  lemma NackOrdered(b: Boxes, item: Consumed, reason: string, now: string)
    requires BoxesOrdered(b)
    requires Has(DirOf(b.inbox, item.agentId), item.name)
    ensures BoxesOrdered(NackBoxes(b, item, reason, now))
  {
    var a := item.agentId;
    RemoveOrdered(DirOf(b.inbox, a), item.name);
    PutOrdered(DirOf(b.deadletter, a), File(item.name, DeadLetter(reason, now, Stored(item.envelope))));
  }

  /** `ack` moves the file from the agent's inbox to its ack directory; no
      other agent's directories and no deadletter directory change. */
  lemma AckEffect(b: Boxes, item: Consumed, other: string)
    requires BoxesOrdered(b)
    requires Has(DirOf(b.inbox, item.agentId), item.name)
    ensures var b2 := AckBoxes(b, item); var a := item.agentId;
      && BoxesOrdered(b2)
      && !Has(DirOf(b2.inbox, a), item.name)
      && Find(DirOf(b2.acked, a), item.name) == Find(DirOf(b.inbox, a), item.name)
      && (EndsWith(item.name, ".json") ==>
            |JsonFiles(DirOf(b2.inbox, a))| == |JsonFiles(DirOf(b.inbox, a))| - 1)
      && (other != a ==> DirOf(b2.inbox, other) == DirOf(b.inbox, other)
                         && DirOf(b2.acked, other) == DirOf(b.acked, other))
      && b2.deadletter == b.deadletter
  {
    var a := item.agentId;
    var content := Find(DirOf(b.inbox, a), item.name).value;
    AckOrdered(b, item);
    FindRemove(DirOf(b.inbox, a), item.name, item.name);
    FindPut(DirOf(b.acked, a), File(item.name, content), item.name);
    if EndsWith(item.name, ".json") {
      CountRemove(DirOf(b.inbox, a), item.name);
    }
  }

  /** `nack` moves the message from the agent's inbox to its deadletter
      directory, wrapped with the reason and the time; under a new name it
      raises that agent's deadletter count by one. Other agents and every ack
      directory are unchanged. */
  lemma NackEffect(b: Boxes, item: Consumed, reason: string, now: string, other: string)
    requires BoxesOrdered(b)
    requires Has(DirOf(b.inbox, item.agentId), item.name)
    ensures var b2 := NackBoxes(b, item, reason, now); var a := item.agentId;
      && BoxesOrdered(b2)
      && !Has(DirOf(b2.inbox, a), item.name)
      && Find(DirOf(b2.deadletter, a), item.name) == Some(DeadLetter(reason, now, Stored(item.envelope)))
      && (EndsWith(item.name, ".json") && !Has(DirOf(b.deadletter, a), item.name) ==>
            DeadletterCountOf(b2, a) == DeadletterCountOf(b, a) + 1)
      && (other != a ==> DirOf(b2.inbox, other) == DirOf(b.inbox, other)
                         && DeadletterCountOf(b2, other) == DeadletterCountOf(b, other))
      && b2.acked == b.acked
  {
    var a := item.agentId;
    var f := File(item.name, DeadLetter(reason, now, Stored(item.envelope)));
    NackOrdered(b, item, reason, now);
    FindRemove(DirOf(b.inbox, a), item.name, item.name);
    FindPut(DirOf(b.deadletter, a), f, item.name);
    CountPut(DirOf(b.deadletter, a), f);
  }

  /** The mailbox object. Its directories are fields the methods reassign. */
  class Mailbox {
    var inbox: map<string, Dir<Envelope>>
    var acked: map<string, Dir<Envelope>>
    var deadletter: map<string, Dir<DeadLetter>>

    function State(): Boxes
      reads this
    {
      Boxes(inbox, acked, deadletter)
    }

    ghost predicate Valid()
      reads this
    {
      BoxesOrdered(State())
    }

    /** `new FileMailbox(root)` followed by `init(agents)`: every listed agent
        gets its three directories, all empty. */
    constructor (agents: seq<string>)
      ensures Valid()
      ensures State() == Boxes(map a | a in agents :: [], map a | a in agents :: [], map a | a in agents :: [])
    {
      inbox := map a | a in agents :: [];
      acked := map a | a in agents :: [];
      deadletter := map a | a in agents :: [];
    }

    method Publish(e: Envelope, ms: nat, uuid: string) returns (name: string)
      requires Valid()
      modifies this
      ensures Valid()
      ensures name == FileName(e, ms, uuid)
      ensures State() == PublishBoxes(old(State()), e, ms, uuid)
    {
      name := FileName(e, ms, uuid);
      PublishEffect(State(), e, ms, uuid, e.to);
      inbox := inbox[e.to := Put(DirOf(inbox, e.to), File(name, Stored(e)))];
    }

    function Consume(agent: string, limit: int): seq<Consumed>
      reads this
    {
      ConsumeBoxes(State(), agent, limit)
    }

    function Peek(agent: string): seq<Consumed>
      reads this
    {
      Consume(agent, MaxSafeInteger)
    }

    /** Renaming a file that is no longer in the inbox throws, so the item
        must still be there. */
    method Ack(item: Consumed)
      requires Valid()
      requires Has(DirOf(inbox, item.agentId), item.name)
      modifies this
      ensures Valid()
      ensures State() == AckBoxes(old(State()), item)
    {
      AckEffect(State(), item, item.agentId);
      var a := item.agentId;
      var content := Find(DirOf(inbox, a), item.name).value;
      acked := acked[a := Put(DirOf(acked, a), File(item.name, content))];
      inbox := inbox[a := Remove(DirOf(inbox, a), item.name)];
    }

    /** Unlinking a file that is no longer in the inbox throws, so the item
        must still be there. */
    method Nack(item: Consumed, reason: string, now: string)
      requires Valid()
      requires Has(DirOf(inbox, item.agentId), item.name)
      modifies this
      ensures Valid()
      ensures State() == NackBoxes(old(State()), item, reason, now)
    {
      NackEffect(State(), item, reason, now, item.agentId);
      var a := item.agentId;
      deadletter := deadletter[a := Put(DirOf(deadletter, a),
                                        File(item.name, DeadLetter(reason, now, Stored(item.envelope))))];
      inbox := inbox[a := Remove(DirOf(inbox, a), item.name)];
    }

    function DeadletterCount(agent: string): nat
      reads this
    {
      DeadletterCountOf(State(), agent)
    }
  }

  /** An agent whose deadletter directory was never written counts zero. */
  lemma DeadletterCountFresh(agents: seq<string>, agent: string)
    ensures DeadletterCountOf(Boxes(map a | a in agents :: [], map a | a in agents :: [],
                                    map a | a in agents :: []), agent) == 0
  {
  }
}
