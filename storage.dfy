/**
  The world outside the transcode worker: an S3-style object store, the local
  scratch directory, the calls made to both (in order), and the goroutines
  started with `go` that have not run yet. Every foreign call takes its
  outcome as a parameter: the network, the disk and the encoder are not
  modelled beyond success or failure.
*/
module Storage {
  import opened Wrappers

  type Bytes = seq<bv8>

  /** An object's address. */
  datatype Loc = Loc(bucket: string, key: string)

  /** S3 canned ACLs: the worker publishes with public-read, the older pipeline sets none. */
  datatype Acl = Private | PublicRead

  /** A stored object; `contentType` is "" when the upload did not set one. */
  datatype StoredObject = StoredObject(body: Bytes, contentType: string, acl: Acl)

  /** A call made to the object store or to the encoder, recorded in call order. */
  datatype Effect =
    | GetObject(loc: Loc)
    | PutObject(loc: Loc, contentType: string, acl: Acl)
    | DeleteObject(loc: Loc)
    | RunEncoder(args: seq<string>)

  /** A snapshot of the world, used by the specification functions. */
  datatype HostState<T> = HostState(
    objects: map<Loc, StoredObject>,
    scratch: map<string, Bytes>,
    effects: seq<Effect>,
    tasks: seq<T>)

  /**
    The mutable world the pipelines act on; `T` is the kind of goroutine the
    pipeline starts.
  */
  class Host<T> {
    var objects: map<Loc, StoredObject>
    var scratch: map<string, Bytes>
    var effects: seq<Effect>
    var tasks: seq<T>

    function State(): HostState<T>
      reads this
    {
      HostState(objects, scratch, effects, tasks)
    }

    constructor (objects: map<Loc, StoredObject>, scratch: map<string, Bytes>)
      ensures State() == HostState(objects, scratch, [], [])
    {
      this.objects := objects;
      this.scratch := scratch;
      effects := [];
      tasks := [];
    }

    /** `client.GetObject`: the body when the object exists and the call got through. */
    method Get(loc: Loc, reached: bool) returns (body: Option<Bytes>)
      modifies this
      ensures State() == old(State()).(effects := old(effects) + [GetObject(loc)])
      ensures body == if reached && loc in objects then Some(objects[loc].body) else None
    {
      effects := effects + [GetObject(loc)];
      body := if reached && loc in objects then Some(objects[loc].body) else None;
    }

    /** `client.PutObject`: stores the object when the call succeeds. */
    method Put(loc: Loc, obj: StoredObject, succeeds: bool) returns (ok: bool)
      modifies this
      ensures ok == succeeds
      ensures State() == old(State()).(
        objects := if succeeds then old(objects)[loc := obj] else old(objects),
        effects := old(effects) + [PutObject(loc, obj.contentType, obj.acl)])
    {
      effects := effects + [PutObject(loc, obj.contentType, obj.acl)];
      if succeeds {
        objects := objects[loc := obj];
      }
      ok := succeeds;
    }

    /** `client.DeleteObject`: deleting a missing key is not an error in S3. */
    method Delete(loc: Loc, succeeds: bool) returns (ok: bool)
      modifies this
      ensures ok == succeeds
      ensures State() == old(State()).(
        objects := if succeeds then old(objects) - {loc} else old(objects),
        effects := old(effects) + [DeleteObject(loc)])
    {
      effects := effects + [DeleteObject(loc)];
      if succeeds {
        objects := objects - {loc};
      }
      ok := succeeds;
    }

    /** `os.Create` followed by a copy into the file; on failure nothing is kept. */
    method WriteFile(path: string, body: Bytes, succeeds: bool) returns (ok: bool)
      modifies this
      ensures ok == succeeds
      ensures State() == old(State()).(
        scratch := if succeeds then old(scratch)[path := body] else old(scratch))
    {
      if succeeds {
        scratch := scratch[path := body];
      }
      ok := succeeds;
    }

    /** `os.Open` and read: fails when the file does not exist. */
    method ReadFile(path: string) returns (body: Option<Bytes>)
      ensures body == if path in scratch then Some(scratch[path]) else None
    {
      body := if path in scratch then Some(scratch[path]) else None;
    }

    /** `os.Remove`: fails when the file does not exist. */
    method RemoveFile(path: string) returns (ok: bool)
      modifies this
      ensures ok == (path in old(scratch))
      ensures State() == old(State()).(scratch := old(scratch) - {path})
    {
      ok := path in scratch;
      scratch := scratch - {path};
    }

    /**
      `exec.Command(args...).Run()`: on a zero exit the encoder has written
      `outputs` into the scratch directory; `outputs == None` is a non-zero exit.
    */
    method Exec(args: seq<string>, outputs: Option<map<string, Bytes>>) returns (ok: bool)
      modifies this
      ensures ok == outputs.Some?
      ensures State() == old(State()).(
        scratch := if outputs.Some? then old(scratch) + outputs.value else old(scratch),
        effects := old(effects) + [RunEncoder(args)])
    {
      effects := effects + [RunEncoder(args)];
      if outputs.Some? {
        scratch := scratch + outputs.value;
      }
      ok := outputs.Some?;
    }

    /** `go f(...)`: the goroutine is queued, it runs later. */
    method Go(t: T)
      modifies this
      ensures State() == old(State()).(tasks := old(tasks) + [t])
    {
      tasks := tasks + [t];
    }

    /** Takes the oldest queued goroutine off the queue to run it. */
    method NextTask() returns (t: T)
      requires tasks != []
      modifies this
      ensures t == old(tasks)[0]
      ensures State() == old(State()).(tasks := old(tasks)[1..])
    {
      t := tasks[0];
      tasks := tasks[1..];
    }
  }
}
