/**
 The owner-action queue: privileged writes the deploying account could not
 make itself, stored by key for the owner to perform later. The queue lives
 in memory as a map and on disk as a file; every append rewrites the whole
 file, so `saved` is the last map written to it.
 */
module OwnerActions {

  /** One deferred write: the contract address, the call to make, whether it
      has been done (never set by the tooling) and an explorer link. */
  datatype Entry = Entry(target: string, action: string, complete: bool, link: string)

  datatype Queue = Queue(entries: map<string, Entry>, file: string, saved: map<string, Entry>)

  /** `${tronscanLinkPrefix}/address/${target}#writeContract`. */
  function WriteLink(prefix: string, target: string): string {
    prefix + "/address/" + target + "#writeContract"
  }

  /** The function `appendOwnerActionGenerator` returns, applied to one
      action: the entry under `key` is replaced, and the whole map is then
      written to the queue file. */
  function Append(q: Queue, prefix: string, key: string, action: string, target: string): (r: Queue)
    ensures key in r.entries
    ensures r.entries[key] == Entry(target, action, false, WriteLink(prefix, target))
    ensures r.entries.Keys == q.entries.Keys + {key}
    ensures forall k :: k in q.entries && k != key ==> r.entries[k] == q.entries[k]
    ensures r.saved == r.entries
    ensures r.file == q.file
  {
    var entries := q.entries[key := Entry(target, action, false, WriteLink(prefix, target))];
    Queue(entries, q.file, entries)
  }

  /** Appending under a key already present replaces that entry: the latest
      append wins and no duplicate appears. */
  lemma AppendLastWins(q: Queue, prefix: string, key: string, a1: string, t1: string, a2: string, t2: string)
    ensures Append(Append(q, prefix, key, a1, t1), prefix, key, a2, t2) == Append(q, prefix, key, a2, t2)
  {
    var once := Append(q, prefix, key, a2, t2);
    var twice := Append(Append(q, prefix, key, a1, t1), prefix, key, a2, t2);
    assert twice.entries == once.entries;
  }

  /** Queueing the same action twice leaves the queue as queueing it once. */
  lemma AppendIdempotent(q: Queue, prefix: string, key: string, action: string, target: string)
    ensures Append(Append(q, prefix, key, action, target), prefix, key, action, target)
         == Append(q, prefix, key, action, target)
  {
    AppendLastWins(q, prefix, key, action, target, action, target);
  }

  /** Appends under different keys do not interfere: their order does not
      matter. */
  lemma AppendsCommute(q: Queue, prefix: string, k1: string, a1: string, t1: string, k2: string, a2: string, t2: string)
    requires k1 != k2
    ensures Append(Append(q, prefix, k1, a1, t1), prefix, k2, a2, t2)
         == Append(Append(q, prefix, k2, a2, t2), prefix, k1, a1, t1)
  {
    var x := Append(Append(q, prefix, k1, a1, t1), prefix, k2, a2, t2);
    var y := Append(Append(q, prefix, k2, a2, t2), prefix, k1, a1, t1);
    assert x.entries == y.entries;
  }

  /** An append grows the queue by at most one entry, and not at all when the
      key was already queued. */
  lemma AppendSize(q: Queue, prefix: string, key: string, action: string, target: string)
    ensures key in q.entries ==> |Append(q, prefix, key, action, target).entries| == |q.entries|
    ensures key !in q.entries ==> |Append(q, prefix, key, action, target).entries| == |q.entries| + 1
  {
    var r := Append(q, prefix, key, action, target);
    if key in q.entries {
      assert r.entries.Keys == q.entries.Keys;
    } else {
      assert r.entries.Keys == q.entries.Keys + {key};
      assert |r.entries.Keys| == |q.entries.Keys| + 1;
    }
  }
}
