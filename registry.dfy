/**
 * The plugin container of the platform: an ordered list of registered plugins,
 * queried by type tag. The container itself lives in a library that is not part
 * of this model; its lookup is modelled as an order-preserving filter.
 */
module Registry {
  import opened Outcomes

  /**
   * The fields of a registered plugin that the form builder reads. `app` names the
   * application an upgrade plugin belongs to; `applyError` is the outcome of its
   * `apply` body, which this model treats as a black box (None: it resolves).
   */
  datatype Plugin = Plugin(kind: string, name: string, app: Option<string>, applyError: Option<Error>)

  /** The elements of `s` that satisfy `keep`, in their original order (`Array.prototype.filter`). */
  function Filter<T(!new)>(s: seq<T>, keep: T -> bool): (r: seq<T>)
    ensures |r| <= |s|
    ensures forall x :: x in r <==> x in s && keep(x)
  {
    if s == [] then []
    else
      assert s == [s[0]] + s[1..];
      (if keep(s[0]) then [s[0]] else []) + Filter(s[1..], keep)
  }

  /** Filtering a concatenation filters each part and keeps them in order. */
  lemma {:induction false} FilterAppend<T(!new)>(a: seq<T>, b: seq<T>, keep: T -> bool)
    ensures Filter(a + b, keep) == Filter(a, keep) + Filter(b, keep)
  {
    if a == [] {
      assert a + b == b;
    } else {
      assert (a + b)[0] == a[0];
      assert (a + b)[1..] == a[1..] + b;
      FilterAppend(a[1..], b, keep);
    }
  }

  /** Nothing is added or dropped: each kept value occurs as often as in the input, duplicates included. */
  lemma {:induction false} FilterMultiplicity<T(!new)>(s: seq<T>, keep: T -> bool, x: T)
    ensures multiset(Filter(s, keep))[x] == if keep(x) then multiset(s)[x] else 0
  {
    if s != [] {
      assert s == [s[0]] + s[1..];
      FilterMultiplicity(s[1..], keep, x);
    }
  }

  /** Two filters in a row are one filter by the conjunction of their tests. */
  lemma {:induction false} FilterFilter<T(!new)>(s: seq<T>, first: T -> bool, second: T -> bool, both: T -> bool)
    requires forall x :: both(x) == (first(x) && second(x))
    ensures Filter(Filter(s, first), second) == Filter(s, both)
  {
    if s != [] {
      var head := if first(s[0]) then [s[0]] else [];
      FilterAppend(head, Filter(s[1..], first), second);
      FilterFilter(s[1..], first, second, both);
    }
  }

  /** `plugins.byType(kind)`: the registered plugins whose type tag is `kind`, in registration order. */
  function ByType(plugins: seq<Plugin>, kind: string): (r: seq<Plugin>)
    ensures forall p :: p in r <==> p in plugins && p.kind == kind
  {
    Filter(plugins, (p: Plugin) => p.kind == kind)
  }

  /** Registering one more plugin appends it to every lookup of its own type and to no other. */
  lemma ByTypeRegistration(plugins: seq<Plugin>, p: Plugin, kind: string)
    ensures ByType(plugins + [p], kind) == ByType(plugins, kind) + (if p.kind == kind then [p] else [])
  {
    FilterAppend(plugins, [p], (q: Plugin) => q.kind == kind);
    assert [p][1..] == [];
  }
}
