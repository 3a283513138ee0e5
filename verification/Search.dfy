/** `property_search` (rentalhouse/rentalapp/views.py): the available
    properties, narrowed by every bound of the `PropertySearchForm` that is
    truthy. The view filters the listing once per bound; the result is the
    same as keeping, in listing order, the properties that pass all bounds
    at once. */
module Search {
  import opened Common
  import opened Entities
  import Forms
  import Text

  /** The properties of `ps` that satisfy `f`, in their order in `ps`; one
      `.filter(...)` of a query set. */
  function Keep(ps: seq<Property>, f: Property -> bool): (r: seq<Property>)
    ensures |r| <= |ps|
    ensures forall p :: p in r <==> p in ps && f(p)
  {
    if |ps| == 0 then []
    else (if f(ps[0]) then [ps[0]] else []) + Keep(ps[1..], f)
  }

  lemma {:induction false} KeepAppend(a: seq<Property>, b: seq<Property>, f: Property -> bool)
    ensures Keep(a + b, f) == Keep(a, f) + Keep(b, f)
  {
    if |a| > 0 {
      assert (a + b)[0] == a[0];
      assert (a + b)[1..] == a[1..] + b;
      KeepAppend(a[1..], b, f);
    } else {
      assert a + b == b;
    }
  }

  /** Two filters in a row are one filter by their conjunction. */
  lemma {:induction false} KeepTwice(ps: seq<Property>, f: Property -> bool, g: Property -> bool, h: Property -> bool)
    requires forall p :: h(p) == (f(p) && g(p))
    ensures Keep(Keep(ps, f), g) == Keep(ps, h)
    decreases |ps|
  {
    if |ps| > 0 {
      var head := if f(ps[0]) then [ps[0]] else [];
      KeepAppend(head, Keep(ps[1..], f), g);
      KeepTwice(ps[1..], f, g, h);
      if f(ps[0]) {
        assert Keep(head, g) == if g(ps[0]) then [ps[0]] else [];
      } else {
        assert Keep(head, g) == [];
      }
    }
  }

  /** Filters that agree on every property keep the same properties. */
  lemma {:induction false} KeepSame(ps: seq<Property>, f: Property -> bool, g: Property -> bool)
    requires forall p :: f(p) == g(p)
    ensures Keep(ps, f) == Keep(ps, g)
    decreases |ps|
  {
    if |ps| > 0 {
      KeepSame(ps[1..], f, g);
    }
  }

  /** The bounds are applied only when the query string is non-empty (an
      empty one leaves the form unbound) and the form validates; otherwise
      the search lists every available property. */
  predicate Filtering(q: Option<Forms.SearchQuery>) {
    q.Some? && Forms.SearchFormValid(q.value)
  }

  /** `p` passes every truthy bound of `q`: the city contains the requested
      text ignoring case, the type is the requested one, and the bedrooms and
      the rent lie within the requested bounds. A zero or empty bound is
      skipped. */
  predicate Matches(p: Property, q: Forms.SearchQuery) {
    && (|q.city| == 0 || Text.ContainsIgnoringCase(q.city, p.city))
    && (|q.propertyType| == 0 || p.propertyType == q.propertyType)
    && (!Truthy(q.minBedrooms) || p.bedrooms >= q.minBedrooms.value)
    && (!Truthy(q.maxBedrooms) || p.bedrooms <= q.maxBedrooms.value)
    && (!Truthy(q.minRent) || p.rent >= q.minRent.value)
    && (!Truthy(q.maxRent) || p.rent <= q.maxRent.value)
  }

  /** `p` appears in the results of query `q`. */
  predicate Listed(p: Property, q: Option<Forms.SearchQuery>) {
    p.status == Available && (!Filtering(q) || Matches(p, q.value))
  }

  /** One `if bound: properties = properties.filter(...)` step of the view:
      whether the bound is truthy, and the filter it applies. */
  datatype Step = Step(truthy: bool, filter: Property -> bool)

  /** One step applied to a listing. */
  function Narrow(ps: seq<Property>, step: Step): (r: seq<Property>)
    ensures forall p :: p in r <==> p in ps && (!step.truthy || step.filter(p))
  {
    if step.truthy then Keep(ps, step.filter) else ps
  }

  /** The steps applied one after the other. */
  function NarrowAll(ps: seq<Property>, steps: seq<Step>): (r: seq<Property>)
    ensures forall p :: p in r ==> p in ps
    decreases |steps|
  {
    if |steps| == 0 then ps else NarrowAll(Narrow(ps, steps[0]), steps[1..])
  }

  /** `p` passes every step whose bound is truthy. */
  predicate PassesAll(p: Property, steps: seq<Step>) {
    forall i :: 0 <= i < |steps| ==> !steps[i].truthy || steps[i].filter(p)
  }

  /** The six steps of `property_search`, in the order the view applies them. */
  function SearchSteps(f: Forms.SearchQuery): seq<Step> {
    [ Step(|f.city| > 0, (p: Property) => Text.ContainsIgnoringCase(f.city, p.city)),
      Step(|f.propertyType| > 0, (p: Property) => p.propertyType == f.propertyType),
      Step(Truthy(f.minBedrooms), (p: Property) => f.minBedrooms.Some? && p.bedrooms >= f.minBedrooms.value),
      Step(Truthy(f.maxBedrooms), (p: Property) => f.maxBedrooms.Some? && p.bedrooms <= f.maxBedrooms.value),
      Step(Truthy(f.minRent), (p: Property) => f.minRent.Some? && p.rent >= f.minRent.value),
      Step(Truthy(f.maxRent), (p: Property) => f.maxRent.Some? && p.rent <= f.maxRent.value) ]
  }

  /** The query set `property_search` builds: the available properties, then
      the six steps when the form is bound and valid. */
  function SearchChain(ps: seq<Property>, q: Option<Forms.SearchQuery>): (r: seq<Property>)
    ensures forall p :: p in r ==> p in ps && p.status == Available
    ensures !Filtering(q) ==> forall p :: p in r <==> p in ps && p.status == Available
  {
    var available := Keep(ps, (p: Property) => p.status == Available);
    if Filtering(q) then NarrowAll(available, SearchSteps(q.value)) else available
  }

  /** `property_search`: its results are exactly the `Listed` properties of
      the listing, in listing order; in particular every result is
      available, and without a valid query every available property is
      listed. */
  function PropertySearch(ps: seq<Property>, q: Option<Forms.SearchQuery>): (r: seq<Property>)
    ensures r == Keep(ps, (p: Property) => Listed(p, q))
    ensures forall p :: p in r <==> p in ps && Listed(p, q)
    ensures forall p :: p in r ==> p.status == Available
    ensures !Filtering(q) ==> forall p :: p in r <==> p in ps && p.status == Available
  {
    SearchIsOneFilter(ps, q);
    SearchChain(ps, q)
  }

  /** Narrowing one pass over `ps` by a run of steps is again one pass over
      `ps`, keeping what the first pass kept and every step passes. */
  lemma {:induction false} NarrowAllKeep(ps: seq<Property>, acc: Property -> bool, steps: seq<Step>, all: Property -> bool)
    requires forall p :: all(p) == (acc(p) && PassesAll(p, steps))
    ensures NarrowAll(Keep(ps, acc), steps) == Keep(ps, all)
    decreases |steps|
  {
    if |steps| == 0 {
      KeepSame(ps, acc, all);
    } else {
      var step := steps[0];
      var acc' := (p: Property) => acc(p) && (!step.truthy || step.filter(p));
      if step.truthy {
        KeepTwice(ps, acc, step.filter, acc');
      } else {
        KeepSame(ps, acc, acc');
      }
      forall p
        ensures all(p) == (acc'(p) && PassesAll(p, steps[1..]))
      {
        if PassesAll(p, steps[1..]) && (!step.truthy || step.filter(p)) {
          forall i | 0 <= i < |steps|
            ensures !steps[i].truthy || steps[i].filter(p)
          {
            if i > 0 {
              assert steps[i] == steps[1..][i - 1];
            }
          }
        }
        if PassesAll(p, steps) {
          forall i | 0 <= i < |steps| - 1
            ensures !steps[1..][i].truthy || steps[1..][i].filter(p)
          {
            assert steps[1..][i] == steps[i + 1];
          }
        }
      }
      NarrowAllKeep(ps, acc', steps[1..], all);
    }
  }

  /** A property passes the six steps exactly when it matches the query. */
  lemma PassesSearchSteps(p: Property, f: Forms.SearchQuery)
    ensures PassesAll(p, SearchSteps(f)) <==> Matches(p, f)
  {
    var steps := SearchSteps(f);
    if Matches(p, f) {
      forall i | 0 <= i < |steps|
        ensures !steps[i].truthy || steps[i].filter(p)
      {
      }
    }
    if PassesAll(p, steps) {
      assert !steps[0].truthy || steps[0].filter(p);
      assert !steps[1].truthy || steps[1].filter(p);
      assert !steps[2].truthy || steps[2].filter(p);
      assert !steps[3].truthy || steps[3].filter(p);
      assert !steps[4].truthy || steps[4].filter(p);
      assert !steps[5].truthy || steps[5].filter(p);
    }
  }

  /** The chain of filters keeps the listing's order: its result is the one
      pass over the listing that keeps exactly the `Listed` properties. */
  lemma SearchIsOneFilter(ps: seq<Property>, q: Option<Forms.SearchQuery>)
    ensures SearchChain(ps, q) == Keep(ps, (p: Property) => Listed(p, q))
  {
    var avail := (p: Property) => p.status == Available;
    if Filtering(q) {
      var f := q.value;
      forall p
        ensures Listed(p, q) == (avail(p) && PassesAll(p, SearchSteps(f)))
      {
        PassesSearchSteps(p, f);
      }
      NarrowAllKeep(ps, avail, SearchSteps(f), (p: Property) => Listed(p, q));
    } else {
      KeepSame(ps, avail, (p: Property) => Listed(p, q));
    }
  }

  /** A maximum of zero is falsy: asking for at most 0 bedrooms lists the
      same properties as giving no maximum at all. */
  lemma ZeroMaxBedroomsIsNoBound(ps: seq<Property>, q: Forms.SearchQuery)
    ensures PropertySearch(ps, Some(q.(maxBedrooms := Some(0))))
         == PropertySearch(ps, Some(q.(maxBedrooms := None)))
  {
    var zero := Some(q.(maxBedrooms := Some(0)));
    var none := Some(q.(maxBedrooms := None));
    SearchIsOneFilter(ps, zero);
    SearchIsOneFilter(ps, none);
    assert forall p :: Listed(p, zero) == Listed(p, none);
    KeepSame(ps, (p: Property) => Listed(p, zero), (p: Property) => Listed(p, none));
  }

  /** Every text contains itself, ignoring case or not. */
  lemma ContainsItself(s: string)
    ensures Text.ContainsIgnoringCase(s, s)
  {
    var l := Text.LowerText(s);
    assert l[0..|l|] == l;
    assert Text.OccursAt(l, l, 0);
  }

  /** The search form's cross-field check rejects exactly the queries no
      property could match: with well-formed fields, `clean` accepts a query
      if and only if some property passes all of its bounds. */
  lemma SearchCleanRejectsOnlyEmptyRanges(q: Forms.SearchQuery)
    requires Forms.SearchFieldsValid(q)
    ensures Forms.SearchClean(q).Accept? <==> exists p :: Matches(p, q)
  {
    if Forms.SearchClean(q).Accept? {
      var beds := if Truthy(q.minBedrooms) then q.minBedrooms.value else 0;
      var rent := if Truthy(q.minRent) then q.minRent.value else 0;
      var p := Property(0, q.city, q.propertyType, beds, rent, None, Available);
      ContainsItself(q.city);
      assert Matches(p, q);
    } else {
      forall p
        ensures !Matches(p, q)
      {
      }
    }
  }
}
