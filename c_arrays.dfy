/** C lists of pointers that end at the first NULL (`char **ports`, `int **speeds`).
    A slot of such an array is an `Option`: `None` is the NULL pointer, `Some(v)`
    a pointer to `v`. */
module CArrays {

  datatype Option<T> = None | Some(value: T)

  /** True when some slot holds NULL, so a scan for the terminator stays in bounds. */
  ghost predicate NullTerminated<T>(s: seq<Option<T>>)
  {
    exists k :: 0 <= k < |s| && s[k].None?
  }

  /** The number of entries before the first NULL (all of `s` when there is none). */
  function Count<T>(s: seq<Option<T>>): (n: nat)
    ensures n <= |s|
    ensures forall k :: 0 <= k < n ==> s[k].Some?
    ensures n < |s| ==> s[n].None?
    ensures NullTerminated(s) ==> n < |s|
  {
    if s == [] || s[0].None? then 0 else 1 + Count(s[1..])
  }

  /** The pointees of the entries before the first NULL, in order. */
  function Entries<T>(s: seq<Option<T>>): (e: seq<T>)
    ensures |e| == Count(s)
    ensures forall k :: 0 <= k < |e| ==> s[k] == Some(e[k])
  {
    seq(Count(s), k requires 0 <= k < Count(s) => s[k].value)
  }

  /** A slot that holds NULL after only non-NULL slots is where the count stops. */
  lemma CountAt<T>(s: seq<Option<T>>, n: nat)
    requires n < |s| && s[n].None?
    requires forall k :: 0 <= k < n ==> s[k].Some?
    ensures Count(s) == n
  {
  }

  /** Counts the entries of a list that may itself be NULL, as the loops of main.c do. */
  method CountEntries<T>(a: array?<Option<T>>) returns (n: nat)
    requires a != null ==> NullTerminated(a[..])
    ensures n == if a == null then 0 else Count(a[..])
  {
    n := 0;
    if a == null {
      return;
    }
    while a[n].Some?
      invariant n <= Count(a[..]) < a.Length
      decreases Count(a[..]) - n
    {
      n := n + 1;
    }
  }
}
