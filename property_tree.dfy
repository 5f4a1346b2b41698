/**
 * The device property tree: string-valued entries addressed by path.
 * Only the paths that already exist can be read or written; an access to a
 * missing path raises a lookup error and changes nothing.
 */
module PropertyTree {
  import opened Wrappers

  /** One successful access to the tree, as recorded in its log. */
  datatype Access = Get(path: string) | Set(path: string, value: string)

  datatype TreeError = PathNotFound(path: string)

  /** The effect of one access on the tree's entries. */
  function Step(m: map<string, string>, a: Access): map<string, string>
  {
    match a
    case Get(_) => m
    case Set(p, v) => if p in m then m[p := v] else m
  }

  /** The entries after the accesses `ops` have been carried out in order. */
  function Applied(m: map<string, string>, ops: seq<Access>): (r: map<string, string>)
    ensures r.Keys == m.Keys
    decreases |ops|
  {
    if ops == [] then m else Step(Applied(m, ops[..|ops| - 1]), ops[|ops| - 1])
  }

  /**
   * The number of accesses of `ops` that succeed before the first one whose
   * path is not in the tree (|ops| when every path exists).
   */
  function FirstMissing(keys: set<string>, ops: seq<Access>): (k: nat)
    ensures k <= |ops|
    ensures forall j :: 0 <= j < k ==> ops[j].path in keys
    ensures k < |ops| ==> ops[k].path !in keys
  {
    if ops == [] then 0
    else if ops[0].path !in keys then 0
    else 1 + FirstMissing(keys, ops[1..])
  }

  lemma {:induction false} AppliedAppend(m: map<string, string>, a: seq<Access>, b: seq<Access>)
    ensures Applied(m, a + b) == Applied(Applied(m, a), b)
    decreases |b|
  {
    if b == [] {
      assert a + b == a;
    } else {
      var b' := b[..|b| - 1];
      assert (a + b)[..|a + b| - 1] == a + b';
      AppliedAppend(m, a, b');
    }
  }

  /** Carrying out a prefix that contains a missing path stops there. */
  lemma FirstMissingAppend(keys: set<string>, a: seq<Access>, b: seq<Access>)
    requires FirstMissing(keys, a) == |a|
    ensures FirstMissing(keys, a + b) == |a| + FirstMissing(keys, b)
  {
    var k, kb := FirstMissing(keys, a + b), FirstMissing(keys, b);
    forall j | 0 <= j < |a| + kb ensures (a + b)[j].path in keys {
      if j >= |a| { assert (a + b)[j] == b[j - |a|]; }
    }
    if |a| + kb < |a + b| {
      assert (a + b)[|a| + kb] == b[kb];
    }
  }

  /** The value of the last write to p among ops, or d when ops never writes p. */
  function LastWrite(ops: seq<Access>, p: string, d: string): string
    decreases |ops|
  {
    if ops == [] then d
    else if ops[|ops| - 1].Set? && ops[|ops| - 1].path == p then ops[|ops| - 1].value
    else LastWrite(ops[..|ops| - 1], p, d)
  }

  /** An existing entry ends holding the last value written to it, or its old value. */
  lemma {:induction false} AppliedAt(m: map<string, string>, ops: seq<Access>, p: string)
    requires p in m
    ensures Applied(m, ops)[p] == LastWrite(ops, p, m[p])
    decreases |ops|
  {
    if ops != [] {
      AppliedAt(m, ops[..|ops| - 1], p);
    }
  }

  lemma {:induction false} LastWriteAppend(a: seq<Access>, b: seq<Access>, p: string, d: string)
    ensures LastWrite(a + b, p, d) == LastWrite(b, p, LastWrite(a, p, d))
    decreases |b|
  {
    if b == [] {
      assert a + b == a;
    } else {
      assert (a + b)[..|a + b| - 1] == a + b[..|b| - 1];
      LastWriteAppend(a, b[..|b| - 1], p, d);
    }
  }

  /**
   * A run of accesses against the tree: the entries afterwards, the accesses
   * that succeeded, and the path of the access that failed, if one did.
   */
  datatype Run = Run(entries: map<string, string>, log: seq<Access>, missing: Option<string>)

  /** A run that went through completely, followed by a second run. */
  function Chain(first: Run, second: Run): Run
  {
    Run(second.entries, first.log + second.log, second.missing)
  }

  /** Carry out ops in order; the first access to a missing path raises and ends the run. */
  function RunAccesses(m: map<string, string>, ops: seq<Access>): (o: Run)
    ensures o.entries.Keys == m.Keys
    decreases |ops|
  {
    if ops == [] then Run(m, [], None)
    else
      var o := RunAccesses(m, ops[..|ops| - 1]);
      var a := ops[|ops| - 1];
      if o.missing.Some? then o
      else if a.path !in o.entries then o.(missing := Some(a.path))
      else Run(Step(o.entries, a), o.log + [a], None)
  }

  lemma {:induction false} RunAppend(m: map<string, string>, a: seq<Access>, b: seq<Access>)
    ensures var oa := RunAccesses(m, a);
            RunAccesses(m, a + b) == if oa.missing.Some? then oa else Chain(oa, RunAccesses(oa.entries, b))
    decreases |b|
  {
    var oa := RunAccesses(m, a);
    if b == [] {
      assert a + b == a;
    } else {
      var b', x := b[..|b| - 1], b[|b| - 1];
      assert (a + b)[..|a + b| - 1] == a + b';
      assert (a + b)[|a + b| - 1] == x;
      RunAppend(m, a, b');
      if oa.missing.None? {
        var ob' := RunAccesses(oa.entries, b');
        var ob := RunAccesses(oa.entries, b);
        assert ob == if ob'.missing.Some? then ob'
                     else if x.path !in ob'.entries then ob'.(missing := Some(x.path))
                     else Run(Step(ob'.entries, x), ob'.log + [x], None);
        if ob'.missing.None? && x.path in ob'.entries {
          assert oa.log + (ob'.log + [x]) == (oa.log + ob'.log) + [x];
        }
      }
    }
  }

  /** What a run logs is the prefix of ops before the failing access, which it names. */
  lemma {:induction false} RunLogPrefix(m: map<string, string>, ops: seq<Access>)
    ensures var o := RunAccesses(m, ops);
            |o.log| <= |ops| && o.log == ops[..|o.log|]
            && (o.missing.None? <==> |o.log| == |ops|)
            && (o.missing.Some? ==> o.missing.value == ops[|o.log|].path)
    decreases |ops|
  {
    if ops != [] {
      var init := ops[..|ops| - 1];
      RunLogPrefix(m, init);
      var o := RunAccesses(m, init);
      assert init[..|o.log|] == ops[..|o.log|];
      if o.missing.None? {
        assert ops[..|ops|] == ops;
        assert init + [ops[|ops| - 1]] == ops;
      }
    }
  }

  /** The entries after a run are the effect of the accesses it logged. */
  lemma {:induction false} RunEntries(m: map<string, string>, ops: seq<Access>)
    ensures RunAccesses(m, ops).entries == Applied(m, RunAccesses(m, ops).log)
    decreases |ops|
  {
    if ops != [] {
      var init := ops[..|ops| - 1];
      RunEntries(m, init);
      var o := RunAccesses(m, init);
      var l := o.log + [ops[|ops| - 1]];
      assert l[..|l| - 1] == o.log;
    }
  }

  /** A run logs exactly the accesses before the first one whose path is missing. */
  lemma {:induction false} RunStopsAtFirstMissing(m: map<string, string>, ops: seq<Access>)
    ensures |RunAccesses(m, ops).log| == FirstMissing(m.Keys, ops)
    decreases |ops|
  {
    if ops != [] {
      var init, x := ops[..|ops| - 1], ops[|ops| - 1];
      assert ops == init + [x];
      RunStopsAtFirstMissing(m, init);
      RunLogPrefix(m, init);
      var oi := RunAccesses(m, init);
      if oi.missing.Some? {
        FirstMissingStops(m.Keys, init, [x]);
      } else {
        FirstMissingAppend(m.Keys, init, [x]);
      }
    }
  }

  /** A prefix that stops early stops the whole sequence at the same place. */
  lemma FirstMissingStops(keys: set<string>, a: seq<Access>, b: seq<Access>)
    requires FirstMissing(keys, a) < |a|
    ensures FirstMissing(keys, a + b) == FirstMissing(keys, a)
  {
    var k := FirstMissing(keys, a);
    assert (a + b)[k] == a[k];
    forall j | 0 <= j < k ensures (a + b)[j].path in keys {
      assert (a + b)[j] == a[j];
    }
    FirstMissingCut(keys, a + b, k);
  }

  /** FirstMissing is k when the first k paths exist and path k does not (or k is the end). */
  lemma FirstMissingCut(keys: set<string>, ops: seq<Access>, k: nat)
    requires k <= |ops|
    requires forall j :: 0 <= j < k ==> ops[j].path in keys
    requires k < |ops| ==> ops[k].path !in keys
    ensures FirstMissing(keys, ops) == k
  {
  }

  /** The tree: its entries and the log of the accesses that succeeded. */
  class Tree {
    var entries: map<string, string>
    var log: seq<Access>

    constructor (initial: map<string, string>)
      ensures entries == initial && log == []
    {
      entries := initial;
      log := [];
    }

    /** access<std::string>(path).get() */
    method Get(path: string) returns (v: Result<string, TreeError>)
      modifies this
      ensures entries == old(entries)
      ensures v.Success? <==> path in old(entries)
      ensures v.Success? ==> v.value == old(entries)[path] && log == old(log) + [Access.Get(path)]
      ensures v.Failure? ==> v.error == PathNotFound(path) && log == old(log)
    {
      if path in entries {
        v := Success(entries[path]);
        log := log + [Access.Get(path)];
      } else {
        v := Failure(PathNotFound(path));
      }
    }

    /** access<std::string>(path).set(value) */
    method Set(path: string, value: string) returns (ok: Result<(), TreeError>)
      modifies this
      ensures ok.Success? <==> path in old(entries)
      ensures ok.Success? ==> entries == old(entries)[path := value] && log == old(log) + [Access.Set(path, value)]
      ensures ok.Failure? ==> ok.error == PathNotFound(path) && entries == old(entries) && log == old(log)
    {
      if path in entries {
        entries := entries[path := value];
        log := log + [Access.Set(path, value)];
        ok := Success(());
      } else {
        ok := Failure(PathNotFound(path));
      }
    }
  }
}
