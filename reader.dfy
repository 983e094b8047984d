/** The file-reading capability of the data sources (src/datasource/mod.rs): the result type
    of `Reader::read_to_string`, and the scripted reader the tests use to drive the data sources. */
module Reader {
  import opened Text

  /** The `std::io::ErrorKind`s the data sources tell apart. */
  datatype ErrorKind = NotFound | Other

  /** `std::io::Result<T>`. */
  datatype IoResult<+T> = IoOk(value: T) | IoErr(kind: ErrorKind, message: String)

  /** The canned responses for one path and the position of the next one to hand out. */
  datatype Queue = Queue(cursor: nat, responses: seq<String>)

  /** What the read that comes `ahead` reads after the next one returns, given the queues. */
  function Peek(data: map<String, Queue>, path: String, ahead: nat): (r: IoResult<String>)
    ensures path !in data ==> r.IoErr? && r.kind == NotFound
    ensures path in data ==> (r.IoOk? <==> data[path].cursor + ahead < |data[path].responses|)
  {
    if path !in data then IoErr(NotFound, "File not found: " + path)
    else if data[path].cursor + ahead < |data[path].responses| then IoOk(data[path].responses[data[path].cursor + ahead])
    else IoErr(Other, "Response not mocked")
  }

  /** `HardcodedReader`: a per-path queue of responses, each read handing out the next one. */
  class HardcodedReader {
    var data: map<String, Queue>

    constructor ()
      ensures data == map[]
    {
      data := map[];
    }

    /** Appends a response to the path's queue, creating the queue with its cursor at 0. */
    method AddResponse(key: String, value: String)
      modifies this
      ensures key in old(data) ==> data == old(data)[key := Queue(old(data)[key].cursor, old(data)[key].responses + [value])]
      ensures key !in old(data) ==> data == old(data)[key := Queue(0, [value])]
    {
      if key in data {
        var q := data[key];
        data := data[key := Queue(q.cursor, q.responses + [value])];
      } else {
        data := data[key := Queue(0, [value])];
      }
    }

    /** Hands out the path's next response and advances its cursor; an unknown path is NotFound,
        and once the responses are used up every read fails without advancing the cursor. */
    method ReadToString(path: String) returns (r: IoResult<String>)
      modifies this
      ensures r == Peek(old(data), path, 0)
      ensures r.IoOk? ==> data == old(data)[path := Queue(old(data)[path].cursor + 1, old(data)[path].responses)]
      ensures r.IoErr? ==> data == old(data)
    {
      if path !in data {
        return IoErr(NotFound, "File not found: " + path);
      }
      var q := data[path];
      if q.cursor >= |q.responses| {
        return IoErr(Other, "Response not mocked");
      }
      r := IoOk(q.responses[q.cursor]);
      data := data[path := Queue(q.cursor + 1, q.responses)];
    }
  }

  /** After a successful read, the read that was one ahead is now the next one. */
  lemma PeekAfterRead(data: map<String, Queue>, path: String, ahead: nat)
    requires Peek(data, path, 0).IoOk?
    ensures Peek(data[path := Queue(data[path].cursor + 1, data[path].responses)], path, ahead) == Peek(data, path, ahead + 1)
  {
  }

  /** A client of the reader: two responses for one path are read back in insertion order, a
      third read fails with "Response not mocked", and a path never added is not found. */
  method ReadsInInsertionOrder(path: String, first: String, second: String)
    returns (a: IoResult<String>, b: IoResult<String>, c: IoResult<String>, d: IoResult<String>)
    ensures a == IoOk(first) && b == IoOk(second)
    ensures c == IoErr(Other, "Response not mocked")
    ensures d == IoErr(NotFound, "File not found: " + path + "x")
  {
    var reader := new HardcodedReader();
    reader.AddResponse(path, first);
    reader.AddResponse(path, second);
    a := reader.ReadToString(path);
    b := reader.ReadToString(path);
    c := reader.ReadToString(path);
    d := reader.ReadToString(path + "x");
  }
}
