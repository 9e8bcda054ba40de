/** `IDs`: one page of account ids, with the cursors of the neighbouring pages. A
    cursor of 0 means there is no page in that direction. */
module IdPages {
  import opened Wrappers
  import opened JavaNumbers
  import opened ValueTypes

  /** `Arrays.hashCode(int[])` of the array's contents: 1, then `31 * h + e` per element. */
  function ArrayHash(s: seq<int>): (h: int)
    ensures IsInt(h)
    ensures s == [] ==> h == 1
  {
    if s == [] then 1 else HashStep(ArrayHash(s[..|s| - 1]), s[|s| - 1])
  }

  /** `Arrays.equals(int[], int[])`: both null, or both present with the same length and
      the same element at every index. */
  predicate ArraysEqual(a: array?<int>, b: array?<int>)
    reads a, b
    ensures ArraysEqual(a, b) <==> (a == null && b == null) || (a != null && b != null && a[..] == b[..])
  {
    if a == b then true
    else if a == null || b == null then false
    else a.Length == b.Length && forall i :: 0 <= i < a.Length ==> a[i] == b[i]
  }

  class IDs {
    var ids: array?<int>
    var previousCursor: int
    var nextCursor: int
    var rateLimitStatus: Option<RateLimitStatus>

    /** `new IDs()`: no array and both cursors -1, so a fresh page claims neighbours on
        both sides. */
    constructor ()
      ensures ids == null && previousCursor == -1 && nextCursor == -1 && rateLimitStatus == None
      ensures HasNext() && HasPrevious()
    {
      ids := null;
      previousCursor := -1;
      nextCursor := -1;
      rateLimitStatus := None;
    }

    /** Stores the array itself, not a copy: the page and the caller share it. */
    method SetIDs(ids: array?<int>)
      modifies this`ids
      ensures this.ids == ids
    {
      this.ids := ids;
    }

    method SetPreviousCursor(previousCursor: int)
      modifies this`previousCursor
      ensures this.previousCursor == previousCursor
      ensures HasPrevious() <==> previousCursor != 0
    {
      this.previousCursor := previousCursor;
    }

    method SetNextCursor(nextCursor: int)
      modifies this`nextCursor
      ensures this.nextCursor == nextCursor
      ensures HasNext() <==> nextCursor != 0
    {
      this.nextCursor := nextCursor;
    }

    method SetRateLimitStatus(rateLimitStatus: Option<RateLimitStatus>)
      modifies this`rateLimitStatus
      ensures this.rateLimitStatus == rateLimitStatus
    {
      this.rateLimitStatus := rateLimitStatus;
    }

    /** `hasPrevious()`: any cursor but 0. */
    predicate HasPrevious()
      reads this
    {
      0 != previousCursor
    }

    /** `hasNext()`: any cursor but 0. */
    predicate HasNext()
      reads this
    {
      0 != nextCursor
    }

    /** `equals`: another `IDs` holding equal id arrays; cursors and rate limit are
        ignored. */
    predicate Equals(o: object?)
      reads this, o, ids, if o is IDs then (o as IDs).ids else null
      ensures Equals(o) <==> o is IDs && ArraysEqual(ids, (o as IDs).ids)
    {
      if this == o then true
      else if !(o is IDs) then false
      else ArraysEqual(ids, (o as IDs).ids)
    }

    /** `hashCode`: 0 without an array, `Arrays.hashCode` of the contents otherwise. */
    function HashCode(): (h: int)
      reads this, ids
      ensures IsInt(h)
      ensures ids == null ==> h == 0
    {
      if ids == null then 0 else ArrayHash(ids[..])
    }
  }

  /** Equal pages hash alike. */
  lemma IDsHashConsistent(a: IDs, o: object?)
    requires a.Equals(o)
    ensures o is IDs && a.HashCode() == (o as IDs).HashCode()
  {
  }

  /** Pages that differ only in their cursors are equal. */
  lemma CursorsIgnoredByEquals(a: IDs, b: IDs)
    requires a.ids == b.ids
    ensures a.Equals(b)
  {
  }
}
