/** `Relationship`: how a source account and a target account are connected. Only the
    source side's four flags are stored; the target-side questions are answered from
    them. */
module Relationships {
  import opened Wrappers
  import opened JavaNumbers
  import opened ValueTypes

  class Relationship {
    var targetUserId: int
    var targetUserScreenName: Option<string>
    var sourceBlockingTarget: bool
    var sourceNotificationsEnabled: bool
    var sourceFollowingTarget: bool
    var sourceFollowedByTarget: bool
    var sourceUserId: int
    var sourceUserScreenName: Option<string>
    var rateLimitStatus: Option<RateLimitStatus>

    constructor ()
      ensures targetUserId == 0 && targetUserScreenName == None
      ensures !sourceBlockingTarget && !sourceNotificationsEnabled
      ensures !sourceFollowingTarget && !sourceFollowedByTarget
      ensures sourceUserId == 0 && sourceUserScreenName == None && rateLimitStatus == None
    {
      targetUserId := 0;
      targetUserScreenName := None;
      sourceBlockingTarget := false;
      sourceNotificationsEnabled := false;
      sourceFollowingTarget := false;
      sourceFollowedByTarget := false;
      sourceUserId := 0;
      sourceUserScreenName := None;
      rateLimitStatus := None;
    }

    method SetSourceUserId(sourceUserId: int)
      modifies this`sourceUserId
      ensures this.sourceUserId == sourceUserId
    {
      this.sourceUserId := sourceUserId;
    }

    method SetTargetUserId(targetUserId: int)
      modifies this`targetUserId
      ensures this.targetUserId == targetUserId
    {
      this.targetUserId := targetUserId;
    }

    method SetSourceBlockingTarget(sourceBlockingTarget: bool)
      modifies this`sourceBlockingTarget
      ensures this.sourceBlockingTarget == sourceBlockingTarget
    {
      this.sourceBlockingTarget := sourceBlockingTarget;
    }

    method SetSourceUserScreenName(sourceUserScreenName: Option<string>)
      modifies this`sourceUserScreenName
      ensures this.sourceUserScreenName == sourceUserScreenName
    {
      this.sourceUserScreenName := sourceUserScreenName;
    }

    method SetTargetUserScreenName(targetUserScreenName: Option<string>)
      modifies this`targetUserScreenName
      ensures this.targetUserScreenName == targetUserScreenName
    {
      this.targetUserScreenName := targetUserScreenName;
    }

    /** Setting "source follows target" also answers "target is followed by source". */
    method SetSourceFollowingTarget(sourceFollowingTarget: bool)
      modifies this`sourceFollowingTarget
      ensures this.sourceFollowingTarget == sourceFollowingTarget
      ensures IsTargetFollowedBySource() == sourceFollowingTarget
    {
      this.sourceFollowingTarget := sourceFollowingTarget;
    }

    /** Setting "source is followed by target" also answers "target follows source". */
    method SetSourceFollowedByTarget(sourceFollowedByTarget: bool)
      modifies this`sourceFollowedByTarget
      ensures this.sourceFollowedByTarget == sourceFollowedByTarget
      ensures IsTargetFollowingSource() == sourceFollowedByTarget
    {
      this.sourceFollowedByTarget := sourceFollowedByTarget;
    }

    method SetSourceNotificationsEnabled(sourceNotificationsEnabled: bool)
      modifies this`sourceNotificationsEnabled
      ensures this.sourceNotificationsEnabled == sourceNotificationsEnabled
    {
      this.sourceNotificationsEnabled := sourceNotificationsEnabled;
    }

    method SetRateLimitStatus(rateLimitStatus: Option<RateLimitStatus>)
      modifies this`rateLimitStatus
      ensures this.rateLimitStatus == rateLimitStatus
    {
      this.rateLimitStatus := rateLimitStatus;
    }

    /** `isTargetFollowingSource()`: no field of its own, it is the source-side
        "followed by target" flag seen from the other end. */
    predicate IsTargetFollowingSource()
      reads this
      ensures IsTargetFollowingSource() == sourceFollowedByTarget
    {
      sourceFollowedByTarget
    }

    /** `isTargetFollowedBySource()`: the source-side "following target" flag. */
    predicate IsTargetFollowedBySource()
      reads this
      ensures IsTargetFollowedBySource() == sourceFollowingTarget
    {
      sourceFollowingTarget
    }

    /** The inputs on which `equals` returns instead of throwing: it dereferences this
        object's source screen name once the ids match, and its target screen name once
        the source names match too. */
    predicate EqualsDefined(o: object?)
      reads this, o
    {
      if this == o || !(o is Relationship) then true
      else
        var that := o as Relationship;
        sourceUserId != that.sourceUserId || targetUserId != that.targetUserId ||
        (sourceUserScreenName.Some? &&
         (sourceUserScreenName != that.sourceUserScreenName || targetUserScreenName.Some?))
    }

    /** `equals`: the two ids and the two screen names; the four flags and the rate limit
        are ignored. */
    predicate Equals(o: object?)
      reads this, o
      requires EqualsDefined(o)
      ensures Equals(o) <==> o is Relationship && SamePair(o as Relationship)
    {
      if this == o then true
      else if !(o is Relationship) then false
      else SamePair(o as Relationship)
    }

    predicate SamePair(that: Relationship)
      reads this, that
    {
      && sourceUserId == that.sourceUserId
      && targetUserId == that.targetUserId
      && sourceUserScreenName == that.sourceUserScreenName
      && targetUserScreenName == that.targetUserScreenName
    }

    /** `hashCode`: the same four fields folded with 31; it dereferences both names. */
    function HashCode(strHash: string -> int): (h: int)
      reads this
      requires sourceUserScreenName.Some? && targetUserScreenName.Some?
      ensures IsInt(h)
    {
      var h := HashStep(sourceUserId, targetUserId);
      var h := HashStep(h, ToInt32(strHash(sourceUserScreenName.value)));
      HashStep(h, ToInt32(strHash(targetUserScreenName.value)))
    }
  }

  /** Equal relationships hash alike (where hashing does not throw). */
  lemma RelationshipHashConsistent(a: Relationship, o: object?, strHash: string -> int)
    requires a.EqualsDefined(o) && a.Equals(o)
    requires a.sourceUserScreenName.Some? && a.targetUserScreenName.Some?
    ensures o is Relationship
    ensures (o as Relationship).sourceUserScreenName.Some? && (o as Relationship).targetUserScreenName.Some?
    ensures a.HashCode(strHash) == (o as Relationship).HashCode(strHash)
  {
  }

  /** Two distinct relationships between the same ids, neither of which has its screen
      names set (the state of a fresh object), cannot be compared: `equals` throws. */
  lemma UnnamedRelationshipsNotComparable(a: Relationship, b: Relationship)
    requires a != b && a.sourceUserId == b.sourceUserId && a.targetUserId == b.targetUserId
    requires a.sourceUserScreenName == None
    ensures !a.EqualsDefined(b)
  {
  }
}
