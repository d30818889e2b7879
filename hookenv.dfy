/** charmhelpers.core.hookenv: the charm config that remembers the values of
    the previous hook run, the memoisation cache behind `@cached` with its
    `flush`, and the `Hooks` registry that maps a hook name to its handler. */
module Hookenv {
  import opened Wrappers
  import opened Text

  /** A config value as JSON holds it; `Null` is Python's None. */
  datatype Value = Null | Bool(b: bool) | Int(i: int) | Str(s: string)

  type Settings = map<string, Value>

  /** `d.get(key)`: a missing key reads as None. */
  function Get(d: Settings, key: string): Value
  {
    if key in d then d[key] else Null
  }

  /** `Config.previous(key)`: the value in the snapshot of the previous run.
      An absent and an empty snapshot are both false in Python, so both give
      None. */
  function PreviousValue(prev: Option<Settings>, key: string): (v: Value)
    ensures prev.None? ==> v == Null
    ensures prev.Some? ==> v == Get(prev.value, key)
  {
    if prev.Some? && prev.value != map[] then Get(prev.value, key) else Null
  }

  /** `Config.changed(key)`. */
  function ChangedSince(prev: Option<Settings>, current: Settings, key: string): bool
  {
    prev.None? || PreviousValue(prev, key) != Get(current, key)
  }

  /** What `Config.save` writes: the current values, plus every key of the
      previous snapshot that the current values lack, with its old value. */
  function SaveMerge(prev: Option<Settings>, current: Settings): (m: Settings)
    ensures prev.None? ==> m == current
    ensures prev.Some? ==> m.Keys == current.Keys + prev.value.Keys
    ensures forall k :: k in current ==> k in m && m[k] == current[k]
    ensures prev.Some? ==> forall k :: k in prev.value && k !in current ==> m[k] == prev.value[k]
  {
    if prev.Some? && prev.value != map[] then prev.value + current else current
  }

  /** Without a snapshot every key counts as changed. */
  lemma ChangedOnFirstRun(current: Settings, key: string)
    ensures ChangedSince(None, current, key)
  {
  }

  /** With a snapshot, a key has changed exactly when its old and new values
      differ, a missing key reading as None on either side. */
  lemma ChangedIffDiffers(prev: Settings, current: Settings, key: string)
    ensures ChangedSince(Some(prev), current, key) <==> Get(prev, key) != Get(current, key)
  {
  }

  /** After `save` and a `load_previous` of what it wrote, a key that the
      saving run held has changed exactly when the new run holds a different
      value for it. */
  lemma SaveThenLoad(prev: Option<Settings>, current: Settings, next: Settings, key: string)
    requires key in current
    ensures ChangedSince(Some(SaveMerge(prev, current)), next, key) <==> Get(next, key) != current[key]
  {
  }

  /** A key of the previous snapshot that the saving run dropped is carried
      into the saved file with its old value. */
  lemma SaveCarriesDroppedKey(prev: Settings, current: Settings, next: Settings, key: string)
    requires key in prev && key !in current
    ensures key in SaveMerge(Some(prev), current)
    ensures ChangedSince(Some(SaveMerge(Some(prev), current)), next, key) <==> Get(next, key) != prev[key]
  {
  }

  const ConfigFileName := ".juju-persistent-config"

  /** The saved config files of the charm directory, by path; JSON
      serialisation is the identity here. */
  class Disk {
    var files: map<string, Settings>

    constructor (files: map<string, Settings>)
      ensures this.files == files
    {
      this.files := files;
    }
  }

  /** `hookenv.Config`: the current values, the frozen snapshot of the
      previous run (`_prev_dict`) and the path it was loaded from. */
  class Config {
    var current: Settings
    var prev: Option<Settings>
    var path: string
    const disk: Disk

    /** Reads the snapshot at `<charm_dir>/.juju-persistent-config` when
        that file exists. */
    constructor (data: Settings, charmDir: string, disk: Disk)
      ensures this.disk == disk && current == data
      ensures path == PathJoin(charmDir, ConfigFileName)
      ensures prev == if path in disk.files then Some(disk.files[path]) else None
    {
      current := data;
      prev := None;
      path := PathJoin(charmDir, ConfigFileName);
      this.disk := disk;
      new;
      if path in disk.files {
        var _ := LoadPrevious(None);
      }
    }

    /** `load_previous(path)`: an empty or missing path keeps the current
        one; a missing file raises IOError and leaves the snapshot alone. */
    method LoadPrevious(p: Option<string>) returns (r: Outcome<Error>)
      modifies this
      ensures path == if p.Some? && p.value != "" then p.value else old(path)
      ensures current == old(current)
      ensures path in disk.files ==> r == Pass && prev == Some(disk.files[path])
      ensures path !in disk.files ==> r == Fail(IOError(path)) && prev == old(prev)
    {
      if p.Some? && p.value != "" {
        path := p.value;
      }
      if path in disk.files {
        prev := Some(disk.files[path]);
        r := Pass;
      } else {
        r := Fail(IOError(path));
      }
    }

    function Changed(key: string): bool
      reads this
    {
      ChangedSince(prev, current, key)
    }

    function Previous(key: string): Value
      reads this
    {
      PreviousValue(prev, key)
    }

    /** `save()`: merges the dropped keys of the snapshot back in, one at a
        time, then writes the result to `path`. */
    method Save()
      modifies this, disk
      ensures current == SaveMerge(old(prev), old(current))
      ensures disk.files == old(disk.files)[path := current]
      ensures prev == old(prev) && path == old(path)
    {
      if prev.Some? && prev.value != map[] {
        var snapshot := prev.value;
        var pending := snapshot.Keys;
        while pending != {}
          invariant pending <= snapshot.Keys
          invariant current == (map k | k in snapshot.Keys - pending :: snapshot[k]) + old(current)
          invariant prev == old(prev) && path == old(path) && disk.files == old(disk.files)
          decreases pending
        {
          var k :| k in pending;
          if k !in current {
            current := current[k := snapshot[k]];
          }
          pending := pending - {k};
        }
        assert (map k | k in snapshot.Keys - {} :: snapshot[k]) == snapshot;
      }
      disk.files := disk.files[path := current];
    }
  }

  /** The entries left by `flush(key)`: those whose key string does not
      contain `key`. */
  function Flushed<V>(entries: map<string, V>, key: string): (m: map<string, V>)
    ensures forall k :: k in m <==> k in entries && !Contains(k, key)
    ensures forall k :: k in m ==> m[k] == entries[k]
  {
    map k | k in entries && !Contains(k, key) :: entries[k]
  }

  /** The global memoisation table of `@cached`, keyed by the string of the
      function and its arguments. */
  class Cache<V> {
    var entries: map<string, V>

    constructor ()
      ensures entries == map[]
    {
      entries := map[];
    }

    /** A call through `@cached`: on a hit the stored value comes back and
        the function does not run; on a miss the function runs (its outcome
        is `computed`), and only a value it returns is stored. An exception
        it raises propagates and leaves the table as it was, so the next
        call runs the function again. */
    method Call(key: string, computed: Result<V, Error>) returns (r: Result<V, Error>, ran: bool)
      modifies this
      ensures ran <==> key !in old(entries)
      ensures !ran ==> r == Success(old(entries)[key]) && entries == old(entries)
      ensures ran ==> r == computed
      ensures ran && computed.Success? ==> entries == old(entries)[key := computed.value]
      ensures ran && computed.Failure? ==> entries == old(entries)
    {
      if key in entries {
        r, ran := Success(entries[key]), false;
      } else {
        ran := true;
        r := computed;
        if computed.Success? {
          entries := entries[key := computed.value];
        }
      }
    }

    /** `flush(key)`: collects the keys that contain `key`, then deletes
        them. */
    method Flush(key: string)
      modifies this
      ensures entries == Flushed(old(entries), key)
    {
      var flushList: seq<string> := [];
      var items := entries.Keys;
      while items != {}
        invariant items <= entries.Keys
        invariant forall k :: k in flushList <==> k in entries.Keys - items && Contains(k, key)
        decreases items
      {
        var item :| item in items;
        if Contains(item, key) {
          flushList := flushList + [item];
        }
        items := items - {item};
      }
      ghost var before := entries;
      var j := 0;
      while j < |flushList|
        invariant 0 <= j <= |flushList|
        invariant entries == map k | k in before && k !in flushList[..j] :: before[k]
      {
        assert flushList[..j + 1] == flushList[..j] + [flushList[j]];
        entries := entries - {flushList[j]};
        j := j + 1;
      }
      assert flushList[..j] == flushList;
    }
  }

  /** Flushing twice with the same key removes nothing more. */
  lemma FlushIdempotent<V>(entries: map<string, V>, key: string)
    ensures Flushed(Flushed(entries, key), key) == Flushed(entries, key)
  {
  }

  /** A hook handler: a Python function, known by its `__name__`. */
  datatype Handler = Handler(name: string, id: nat)

  /** The names `@hooks.hook(*names)` registers a function under: the names
      given, then (the `for`'s `else`, which always runs) the function's own
      name, and its name with `_` turned into `-` when it has an `_`. */
  function HookNames(names: seq<string>, fnName: string): (r: seq<string>)
    ensures forall n :: n in names ==> n in r
    ensures fnName in r
    ensures '_' in fnName ==> ReplaceChar(fnName, '_', '-') in r
    ensures forall n :: n in r ==> n in names || n == fnName || ('_' in fnName && n == ReplaceChar(fnName, '_', '-'))
  {
    names + [fnName] + if '_' in fnName then [ReplaceChar(fnName, '_', '-')] else []
  }

  /** `hookenv.Hooks`: the hook name to handler registry. */
  class Hooks {
    var hooks: map<string, Handler>

    constructor ()
      ensures hooks == map[]
    {
      hooks := map[];
    }

    /** `register`: a later registration of a name replaces the earlier. */
    method Register(name: string, handler: Handler)
      modifies this
      ensures hooks == old(hooks)[name := handler]
    {
      hooks := hooks[name := handler];
    }

    /** `execute(args)`: the handler registered under the basename of
        `args[0]` runs (it is returned here); an unknown name raises
        UnregisteredHookError and runs nothing. */
    method Execute(args: seq<string>) returns (r: Result<Handler, Error>)
      ensures |args| == 0 ==> r == Failure(IndexError)
      ensures |args| > 0 && Basename(args[0]) in hooks ==> r == Success(hooks[Basename(args[0])])
      ensures |args| > 0 && Basename(args[0]) !in hooks ==> r == Failure(UnregisteredHookError(Basename(args[0])))
    {
      if |args| == 0 {
        return Failure(IndexError);
      }
      var hookName := Basename(args[0]);
      if hookName in hooks {
        r := Success(hooks[hookName]);
      } else {
        r := Failure(UnregisteredHookError(hookName));
      }
    }

    /** `@hooks.hook(*names)` applied to `handler`. */
    method Hook(names: seq<string>, handler: Handler)
      modifies this
      ensures forall n :: n in HookNames(names, handler.name) ==> n in hooks && hooks[n] == handler
      ensures forall n :: n !in HookNames(names, handler.name) ==>
                (n in hooks <==> n in old(hooks)) && (n in hooks ==> hooks[n] == old(hooks)[n])
    {
      var i := 0;
      while i < |names|
        invariant 0 <= i <= |names|
        invariant forall n :: n in names[..i] ==> n in hooks && hooks[n] == handler
        invariant forall n :: n !in names[..i] ==>
                    (n in hooks <==> n in old(hooks)) && (n in hooks ==> hooks[n] == old(hooks)[n])
      {
        assert names[..i + 1] == names[..i] + [names[i]];
        Register(names[i], handler);
        i := i + 1;
      }
      assert names[..i] == names;
      Register(handler.name, handler);
      if '_' in handler.name {
        Register(ReplaceChar(handler.name, '_', '-'), handler);
      }
    }
  }
}
