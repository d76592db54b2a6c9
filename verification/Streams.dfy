/** The duplex streams of the RPC dispatcher: a map of records behind a mutex.
    Each method below is one critical section. */
module Streams {
  import opened Options

  type StreamId = int
  type Handle = int
  type Bytes = seq<int>

  /** `write` is the write half while nobody is writing; `q` waits to be written. */
  datatype StreamRec = StreamRec(write: Option<Handle>, q: seq<Bytes>, ended: bool)

  type StreamMap = map<StreamId, StreamRec>

  /** What a write loop does after its critical section: write a batch, end and
      leave the write half in the record, or shut it down. */
  datatype Verdict = Batch(items: seq<Bytes>) | GiveBack | ShutDown

  /** The map after `remove(id)`, and the write half the caller has to shut down. */
  function Removed(m: StreamMap, id: StreamId): (StreamMap, Option<Handle>)
  {
    if id !in m then (m, None)
    else if m[id].write.Some? then (m - {id}, m[id].write)
    else (m[id := m[id].(ended := true)], None)
  }

  /** The map after `write(id, buf)`, and the write half a new loop is given. */
  function Written(m: StreamMap, id: StreamId, buf: Bytes): (StreamMap, Option<Handle>)
  {
    if id !in m then (m, None)
    else (m[id := StreamRec(None, m[id].q + [buf], m[id].ended)], m[id].write)
  }

  /** The map after the critical section of a loop that owns w, and its verdict. */
  function Looped(m: StreamMap, id: StreamId, w: Handle): (StreamMap, Verdict)
  {
    if id !in m then (m, ShutDown)
    else if m[id].q != [] then (m[id := m[id].(q := [])], Batch(m[id].q))
    else if m[id].ended then (m - {id}, ShutDown)
    else (m[id := m[id].(write := Some(w))], GiveBack)
  }

  class Streams {
    var records: StreamMap

    constructor ()
      ensures records == map[]
    {
      records := map[];
    }

    method Insert(id: StreamId, stream: Handle)
      modifies this
      ensures records == old(records)[id := StreamRec(Some(stream), [], false)]
    {
      records := records[id := StreamRec(Some(stream), [], false)];
    }

    method Remove(id: StreamId) returns (remove: Option<Handle>)
      modifies this
      ensures (records, remove) == Removed(old(records), id)
    {
      remove := None;
      if id in records {
        var s := records[id];
        var taken := s.write;
        s := s.(write := None);
        records := records[id := s];
        if taken.Some? {
          records := records - {id};
          remove := taken;
          assert records == old(records) - {id};
        } else {
          s := s.(ended := true);
          records := records[id := s];
          assert records == old(records)[id := old(records)[id].(ended := true)];
        }
      }
    }

    method Write(id: StreamId, buf: Bytes) returns (spawn: Option<Handle>)
      modifies this
      ensures (records, spawn) == Written(old(records), id, buf)
    {
      spawn := None;
      if id in records {
        var s := records[id];
        s := s.(q := s.q + [buf]);
        spawn := s.write;
        s := s.(write := None);
        records := records[id := s];
      }
    }

    /** The critical section of `write_loop`; `items` is its emptied batch. */
    method LoopSection(id: StreamId, w: Handle, items: seq<Bytes>) returns (verdict: Verdict)
      requires items == []
      modifies this
      ensures (records, verdict) == Looped(old(records), id, w)
    {
      if id !in records {
        return ShutDown;
      }
      var rec := records[id];
      if rec.q == [] {
        if rec.ended {
          records := records - {id};
          return ShutDown;
        }
        records := records[id := rec.(write := Some(w))];
        return GiveBack;
      }
      var items' := items;
      var swapped := rec.q;
      rec, items' := rec.(q := items'), swapped;
      records := records[id := rec];
      return Batch(items');
    }
  }
}
