/**
 * The filter composition the task tables share: a domain, a status and a
 * type filter, each either the sentinel `'all'` or a value the field must
 * equal, applied one after the other with `Array.prototype.filter`.
 */
module TaskFilters {
  import opened Seqs
  import opened Types

  /** The sentinel filter value that switches a filter off. */
  const AllValues := "all"

  datatype Field = DomainField | StatusField | TypeField

  function FieldValue(t: Task, f: Field): string
  {
    match f
    case DomainField => t.domain
    case StatusField => t.status
    case TypeField => t.taskType
  }

  /** `if (filter !== 'all') filtered = filtered.filter(t => t.field === filter)` */
  function Narrow(tasks: seq<Task>, f: Field, filter: string): (r: seq<Task>)
    ensures IsSubsequence(r, tasks)
    ensures |r| <= |tasks|
    ensures forall i :: 0 <= i < |r| ==> r[i] in tasks && Admits(filter, FieldValue(r[i], f))
    ensures forall i :: 0 <= i < |tasks| && Admits(filter, FieldValue(tasks[i], f)) ==> tasks[i] in r
    ensures forall t :: multiset(r)[t] == if Admits(filter, FieldValue(t, f)) then multiset(tasks)[t] else 0
  {
    if filter == AllValues then
      SubsequenceReflexive(tasks);
      tasks
    else
      Filter(tasks, (t: Task) => FieldValue(t, f) == filter)
  }

  /** A filter value admits a field value: it is `'all'` or equal to it. */
  predicate Admits(filter: string, value: string)
  {
    filter == AllValues || value == filter
  }

  /** The task passes all three filters. */
  predicate Passes(t: Task, domainFilter: string, statusFilter: string, typeFilter: string)
  {
    Admits(domainFilter, t.domain) && Admits(statusFilter, t.status) && Admits(typeFilter, t.taskType)
  }

  /**
   * The reference definition: one filter pass over the tasks keeping those
   * that pass all three filters at once, in their original order.
   */
  function KeepPassing(tasks: seq<Task>, domainFilter: string, statusFilter: string, typeFilter: string): (r: seq<Task>)
    ensures IsSubsequence(r, tasks)
    ensures |r| <= |tasks|
    ensures forall i :: 0 <= i < |r| ==> r[i] in tasks && Passes(r[i], domainFilter, statusFilter, typeFilter)
    ensures forall i :: 0 <= i < |tasks| && Passes(tasks[i], domainFilter, statusFilter, typeFilter) ==> tasks[i] in r
    ensures forall t :: multiset(r)[t] == if Passes(t, domainFilter, statusFilter, typeFilter) then multiset(tasks)[t] else 0
  {
    Filter(tasks, (t: Task) => Passes(t, domainFilter, statusFilter, typeFilter))
  }

  /**
   * `filterTasks(source)` / `applyFilters()`: a copy of the source narrowed
   * by the domain filter, then the status filter, then the type filter. The
   * three passes together keep exactly what the single reference pass
   * keeps, so the result is an order-preserving subsequence of the source
   * holding the tasks that pass every filter that is not `'all'`.
   */
  method FilterTasks(source: seq<Task>, domainFilter: string, statusFilter: string, typeFilter: string)
    returns (filtered: seq<Task>)
    ensures filtered == KeepPassing(source, domainFilter, statusFilter, typeFilter)
    ensures |filtered| <= |source|
  {
    NarrowChainIsOnePass(source, domainFilter, statusFilter, typeFilter);
    filtered := source;
    filtered := Narrow(filtered, DomainField, domainFilter);
    filtered := Narrow(filtered, StatusField, statusFilter);
    filtered := Narrow(filtered, TypeField, typeFilter);
  }

  /** Narrowing by the three fields in turn is one pass keeping what passes all three. */
  lemma {:induction false} NarrowChainIsOnePass(source: seq<Task>, domainFilter: string, statusFilter: string, typeFilter: string)
    ensures Narrow(Narrow(Narrow(source, DomainField, domainFilter), StatusField, statusFilter), TypeField, typeFilter)
              == KeepPassing(source, domainFilter, statusFilter, typeFilter)
    decreases |source|
  {
    if source != [] {
      var t, rest := source[0], source[1..];
      assert source == [t] + rest;
      NarrowChainIsOnePass(rest, domainFilter, statusFilter, typeFilter);
      KeepPassingCons(t, rest, domainFilter, statusFilter, typeFilter);
      NarrowCons(t, rest, DomainField, domainFilter);
      var d' := Narrow(rest, DomainField, domainFilter);
      if Admits(domainFilter, t.domain) {
        NarrowCons(t, d', StatusField, statusFilter);
        var s' := Narrow(d', StatusField, statusFilter);
        if Admits(statusFilter, t.status) {
          NarrowCons(t, s', TypeField, typeFilter);
        }
      }
    }
  }

  /** How the single reference pass treats the first task of a list. */
  lemma KeepPassingCons(t: Task, rest: seq<Task>, domainFilter: string, statusFilter: string, typeFilter: string)
    ensures KeepPassing([t] + rest, domainFilter, statusFilter, typeFilter) ==
              if Passes(t, domainFilter, statusFilter, typeFilter)
              then [t] + KeepPassing(rest, domainFilter, statusFilter, typeFilter)
              else KeepPassing(rest, domainFilter, statusFilter, typeFilter)
  {
    assert ([t] + rest)[1..] == rest;
  }

  /** How one narrowing step treats the first task of a list. */
  lemma NarrowCons(t: Task, rest: seq<Task>, f: Field, filter: string)
    ensures Narrow([t] + rest, f, filter) ==
              if Admits(filter, FieldValue(t, f)) then [t] + Narrow(rest, f, filter) else Narrow(rest, f, filter)
  {
    assert ([t] + rest)[1..] == rest;
  }

  /** The three narrowing steps commute: applying them in any order gives the same list. */
  lemma NarrowCommutes(tasks: seq<Task>, f: Field, a: string, g: Field, b: string)
    ensures Narrow(Narrow(tasks, f, a), g, b) == Narrow(Narrow(tasks, g, b), f, a)
  {
    if a != AllValues && b != AllValues {
      FilterCommutes(tasks, (t: Task) => FieldValue(t, f) == a, (t: Task) => FieldValue(t, g) == b);
    }
  }

  /** With every filter at `'all'` the table shows the source unchanged. */
  lemma {:induction false} AllFiltersOff(source: seq<Task>)
    ensures KeepPassing(source, AllValues, AllValues, AllValues) == source
    decreases |source|
  {
    if source != [] {
      AllFiltersOff(source[1..]);
    }
  }
}
