/** Go's error values as far as the runner builds them, and `errors.Is`. */
module Errors {
  import opened Wrappers

  type Bytes = seq<char>

  datatype Err =
    | Leaf(id: string)                                   // a sentinel or any other plain error
    | Wrap(text: string, inner: Err)                     // fmt.Errorf with %w
    | Multi(errs: seq<Err>)                              // *multierror.Error
    | Chain(errs: seq<Err>)                              // what unwrapping a *multierror.Error yields
    | Runner(inner: Err, stdout: Bytes, stderr: Bytes)   // *RunnerError

  /** Number of unwrapping steps left in an error, for termination. */
  function Size(e: Err): nat {
    match e
    case Leaf(_) => 0
    case Wrap(_, i) => 1 + Size(i)
    case Multi(es) => 2 + Sizes(es)
    case Chain(es) => 1 + Sizes(es)
    case Runner(i, _, _) => 1 + Size(i)
  }

  function Sizes(es: seq<Err>): (n: nat)
    ensures es != [] ==> Size(es[0]) < n
  {
    if es == [] then 0 else 1 + Size(es[0]) + Sizes(es[1..])
  }

  function Unwrap(e: Err): (u: Option<Err>)
    ensures u.Some? ==> Size(u.value) < Size(e)
  {
    match e
    case Leaf(_) => None
    case Wrap(_, i) => Some(i)
    case Multi(es) => if es == [] then None else Some(Chain(es))
    case Chain(es) => if |es| <= 1 then None else Some(Chain(es[1..]))
    case Runner(i, _, _) => Some(i)
  }

  /** errors.Is for a sentinel: compare, ask the chain's own Is, then unwrap. */
  predicate Is(e: Err, id: string)
    decreases Size(e)
  {
    || e == Leaf(id)
    || (e.Chain? && e.errs != [] && Is(e.errs[0], id))
    || (Unwrap(e).Some? && Is(Unwrap(e).value, id))
  }

  /** multierror.Append: appended multierrors are flattened, anything else becomes one more entry. */
  function Append(chain: Option<Err>, e: Err): (m: Err)
    ensures m.Multi?
  {
    var before := if chain.None? then [] else if chain.value.Multi? then chain.value.errs else [chain.value];
    Multi(before + if e.Multi? then e.errs else [e])
  }

  /** Some error of the list is the sentinel. */
  predicate AnyIs(es: seq<Err>, id: string) {
    exists i :: 0 <= i < |es| && Is(es[i], id)
  }

  lemma AnyConcat(es: seq<Err>, fs: seq<Err>, id: string)
    ensures AnyIs(es + fs, id) <==> AnyIs(es, id) || AnyIs(fs, id)
  {
    var all := es + fs;
    if AnyIs(all, id) {
      var i :| 0 <= i < |all| && Is(all[i], id);
      assert all[i] == if i < |es| then es[i] else fs[i - |es|];
    }
    if AnyIs(es, id) {
      var i :| 0 <= i < |es| && Is(es[i], id);
      assert Is(all[i], id);
    }
    if AnyIs(fs, id) {
      var i :| 0 <= i < |fs| && Is(fs[i], id);
      assert Is(all[|es| + i], id);
    }
  }

  lemma AnyOne(e: Err, id: string)
    ensures AnyIs([e], id) <==> Is(e, id)
    ensures !AnyIs([], id)
  {
    if Is(e, id) { assert Is([e][0], id); }
  }

  lemma {:induction false} IsChain(es: seq<Err>, id: string)
    requires es != []
    ensures Is(Chain(es), id) <==> AnyIs(es, id)
    decreases |es|
  {
    AnyOne(es[0], id);
    assert es == [es[0]] + es[1..];
    AnyConcat([es[0]], es[1..], id);
    if |es| == 1 {
      assert es[1..] == [];
    } else {
      IsChain(es[1..], id);
    }
  }

  /** A multierror is every error it holds. */
  lemma IsMulti(es: seq<Err>, id: string)
    ensures Is(Multi(es), id) <==> AnyIs(es, id)
  {
    if es != [] { IsChain(es, id); }
  }

  /** Appending adds what the new error is and loses nothing. */
  lemma IsAppend(chain: Option<Err>, e: Err, id: string)
    ensures Is(Append(chain, e), id) <==> (chain.Some? && Is(chain.value, id)) || Is(e, id)
  {
    var before := if chain.None? then [] else if chain.value.Multi? then chain.value.errs else [chain.value];
    var after := if e.Multi? then e.errs else [e];
    assert AnyIs(after, id) <==> Is(e, id) by {
      if e.Multi? { IsMulti(e.errs, id); } else { AnyOne(e, id); }
    }
    assert AnyIs(before, id) <==> chain.Some? && Is(chain.value, id) by {
      if chain.Some? {
        if chain.value.Multi? { IsMulti(chain.value.errs, id); } else { AnyOne(chain.value, id); }
      }
    }
    IsMulti(before + after, id);
    AnyConcat(before, after, id);
  }
}
