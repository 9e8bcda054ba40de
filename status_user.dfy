/** `Status` (with its nested `InReplyTo`) and `User` (with its nested `Profile`): the
    entities a timeline call produces. They refer to each other (a status has its
    author, a user its latest status), so they share a module. Every Java setter is a
    method whose frame is the one field it assigns; a Java `null` field is `None` or a
    null reference. */
module StatusAndUser {
  import opened Wrappers
  import opened JavaNumbers
  import opened ParseUtil
  import opened ValueTypes

  /** `Status.InReplyTo`: the status, author and screen name a status answers. */
  class InReplyTo {
    var statusId: int
    var userId: int
    var userScreenName: Option<string>

    constructor ()
      ensures statusId == 0 && userId == 0 && userScreenName == None
    {
      statusId := 0;
      userId := 0;
      userScreenName := None;
    }

    method SetStatusId(statusId: int)
      modifies this`statusId
      ensures this.statusId == statusId
    {
      this.statusId := statusId;
    }

    method SetUserId(userId: int)
      modifies this`userId
      ensures this.userId == userId
    {
      this.userId := userId;
    }

    method SetUserScreenName(userScreenName: Option<string>)
      modifies this`userScreenName
      ensures this.userScreenName == userScreenName
    {
      this.userScreenName := userScreenName;
    }

    /** `equals`: the identity shortcut, then the exact class and the three fields, the
        screen name compared null-safely. The shortcut adds nothing: equality is exactly
        field-wise equality with another `InReplyTo`. */
    predicate Equals(o: object?)
      reads this, o
      ensures Equals(o) <==> o is InReplyTo && SameReply(o as InReplyTo)
      ensures o == null ==> !Equals(o)
    {
      if this == o then true
      else if o == null || !(o is InReplyTo) then false
      else SameReply(o as InReplyTo)
    }

    predicate SameReply(that: InReplyTo)
      reads this, that
    {
      statusId == that.statusId && userId == that.userId && userScreenName == that.userScreenName
    }

    /** `hashCode`: `Long.hashCode(statusId)`, then `userId`, then the screen name's hash. */
    function HashCode(strHash: string -> int): (h: int)
      reads this
      ensures IsInt(h)
    {
      HashStep(HashStep(LongHash(statusId), userId), OptHash(userScreenName, strHash))
    }
  }

  /** Equal replies hash alike, whatever `String.hashCode` is. */
  lemma InReplyToHashConsistent(a: InReplyTo, o: object?, strHash: string -> int)
    requires a.Equals(o)
    ensures o is InReplyTo && a.HashCode(strHash) == (o as InReplyTo).HashCode(strHash)
  {
  }

  /** `Status`: one tweet of a timeline. */
  class Status {
    var createdAt: Option<Date>
    var id: int
    var text: Option<string>
    var source: Option<string>
    var truncated: bool
    var favorited: bool
    var geoLocation: Option<GeoLocation>
    var inReplyTo: InReplyTo?
    var retweetedStatus: Status?
    var rateLimitStatus: Option<RateLimitStatus>
    var user: User?

    /** `new Status()`: every reference null and every number zero, so a fresh status is
        neither a retweet nor a reply. */
    constructor ()
      ensures createdAt == None && id == 0 && text == None && source == None
      ensures !truncated && !favorited && geoLocation == None
      ensures inReplyTo == null && retweetedStatus == null && user == null
      ensures rateLimitStatus == None
      ensures !IsRetweet() && !IsInReply()
    {
      createdAt := None;
      id := 0;
      text := None;
      source := None;
      truncated := false;
      favorited := false;
      geoLocation := None;
      inReplyTo := null;
      retweetedStatus := null;
      rateLimitStatus := None;
      user := null;
    }

    method SetCreatedAt(createdAt: Option<Date>)
      modifies this`createdAt
      ensures this.createdAt == createdAt
    {
      this.createdAt := createdAt;
    }

    method SetId(id: int)
      modifies this`id
      ensures this.id == id
    {
      this.id := id;
    }

    method SetText(text: Option<string>)
      modifies this`text
      ensures this.text == text
    {
      this.text := text;
    }

    method SetSource(source: Option<string>)
      modifies this`source
      ensures this.source == source
    {
      this.source := source;
    }

    method SetTruncated(truncated: bool)
      modifies this`truncated
      ensures this.truncated == truncated
    {
      this.truncated := truncated;
    }

    method SetInReplyTo(inReplyTo: InReplyTo?)
      modifies this`inReplyTo
      ensures this.inReplyTo == inReplyTo
      ensures IsInReply() <==> inReplyTo != null
    {
      this.inReplyTo := inReplyTo;
    }

    method SetGeoLocation(geoLocation: Option<GeoLocation>)
      modifies this`geoLocation
      ensures this.geoLocation == geoLocation
    {
      this.geoLocation := geoLocation;
    }

    method SetFavorited(favorited: bool)
      modifies this`favorited
      ensures this.favorited == favorited
    {
      this.favorited := favorited;
    }

    method SetUser(user: User?)
      modifies this`user
      ensures this.user == user
    {
      this.user := user;
    }

    method SetRetweetedStatus(retweetedStatus: Status?)
      modifies this`retweetedStatus
      ensures this.retweetedStatus == retweetedStatus
      ensures IsRetweet() <==> retweetedStatus != null
    {
      this.retweetedStatus := retweetedStatus;
    }

    method SetRateLimitStatus(rateLimitStatus: Option<RateLimitStatus>)
      modifies this`rateLimitStatus
      ensures this.rateLimitStatus == rateLimitStatus
    {
      this.rateLimitStatus := rateLimitStatus;
    }

    /** `isRetweet()`: a retweeted status is attached. */
    predicate IsRetweet()
      reads this
    {
      retweetedStatus != null
    }

    /** `isInReply()`: reply details are attached. */
    predicate IsInReply()
      reads this
    {
      inReplyTo != null
    }

    /** `hashCode`: the id narrowed to `int`. */
    function HashCode(): (h: int)
      reads this
      ensures IsInt(h) && (id - h) % TWO_32 == 0
      ensures IsInt(id) ==> h == id
    {
      ToInt32(id)
    }

    /** `equals`: false for null, true for itself, otherwise any `Status` with the same
        id; text, user and every other field are ignored. */
    predicate Equals(o: object?)
      reads this, o
      ensures Equals(o) <==> o is Status && (o as Status).id == id
      ensures o == null ==> !Equals(o)
      ensures o == this ==> Equals(o)
    {
      if o == null then false
      else if this == o then true
      else o is Status && (o as Status).id == id
    }
  }

  /** Equal statuses hash alike. */
  lemma StatusHashConsistent(a: Status, o: object?)
    requires a.Equals(o)
    ensures o is Status && a.HashCode() == (o as Status).HashCode()
  {
  }

  /** Status equality is symmetric: it looks at the ids alone. */
  lemma StatusEqualsSymmetric(a: Status, b: Status)
    ensures a.Equals(b) <==> b.Equals(a)
  {
  }

  /** `User.Profile`: the colours and images of a profile page. */
  class Profile {
    var textColor: Option<string>
    var linkColor: Option<string>
    var imageUrl: Option<string>
    var backgroundColor: Option<string>
    var backgroundImageUrl: Option<string>
    var backgroundTile: bool
    var sidebarFillColor: Option<string>
    var sidebarBorderColor: Option<string>

    constructor ()
      ensures textColor == None && linkColor == None && imageUrl == None
      ensures backgroundColor == None && backgroundImageUrl == None && !backgroundTile
      ensures sidebarFillColor == None && sidebarBorderColor == None
    {
      textColor := None;
      linkColor := None;
      imageUrl := None;
      backgroundColor := None;
      backgroundImageUrl := None;
      backgroundTile := false;
      sidebarFillColor := None;
      sidebarBorderColor := None;
    }

    method SetImageUrl(imageUrl: Option<string>)
      modifies this`imageUrl
      ensures this.imageUrl == imageUrl
    {
      this.imageUrl := imageUrl;
    }

    method SetBackgroundColor(backgroundColor: Option<string>)
      modifies this`backgroundColor
      ensures this.backgroundColor == backgroundColor
    {
      this.backgroundColor := backgroundColor;
    }

    method SetBackgroundImageUrl(backgroundImageUrl: Option<string>)
      modifies this`backgroundImageUrl
      ensures this.backgroundImageUrl == backgroundImageUrl
    {
      this.backgroundImageUrl := backgroundImageUrl;
    }

    method SetBackgroundTile(backgroundTile: bool)
      modifies this`backgroundTile
      ensures this.backgroundTile == backgroundTile
    {
      this.backgroundTile := backgroundTile;
    }

    method SetLinkColor(linkColor: Option<string>)
      modifies this`linkColor
      ensures this.linkColor == linkColor
    {
      this.linkColor := linkColor;
    }

    method SetSidebarBorderColor(sidebarBorderColor: Option<string>)
      modifies this`sidebarBorderColor
      ensures this.sidebarBorderColor == sidebarBorderColor
    {
      this.sidebarBorderColor := sidebarBorderColor;
    }

    method SetSidebarFillColor(sidebarFillColor: Option<string>)
      modifies this`sidebarFillColor
      ensures this.sidebarFillColor == sidebarFillColor
    {
      this.sidebarFillColor := sidebarFillColor;
    }

    method SetTextColor(textColor: Option<string>)
      modifies this`textColor
      ensures this.textColor == textColor
    {
      this.textColor := textColor;
    }

    /** `equals`: another `Profile` agreeing on all eight fields, the tile flag included,
        each text compared null-safely. */
    predicate Equals(o: object?)
      reads this, o
      ensures Equals(o) <==> o is Profile && SameLook(o as Profile)
    {
      if this == o then true
      else if o == null || !(o is Profile) then false
      else SameLook(o as Profile)
    }

    predicate SameLook(that: Profile)
      reads this, that
    {
      && backgroundTile == that.backgroundTile
      && backgroundColor == that.backgroundColor
      && backgroundImageUrl == that.backgroundImageUrl
      && imageUrl == that.imageUrl
      && linkColor == that.linkColor
      && sidebarBorderColor == that.sidebarBorderColor
      && sidebarFillColor == that.sidebarFillColor
      && textColor == that.textColor
    }

    /** `hashCode`: the eight fields folded with 31 in declaration order of the source. */
    function HashCode(strHash: string -> int): (h: int)
      reads this
      ensures IsInt(h)
    {
      var h := OptHash(textColor, strHash);
      var h := HashStep(h, OptHash(linkColor, strHash));
      var h := HashStep(h, OptHash(imageUrl, strHash));
      var h := HashStep(h, OptHash(backgroundColor, strHash));
      var h := HashStep(h, OptHash(backgroundImageUrl, strHash));
      var h := HashStep(h, if backgroundTile then 1 else 0);
      var h := HashStep(h, OptHash(sidebarFillColor, strHash));
      HashStep(h, OptHash(sidebarBorderColor, strHash))
    }
  }

  /** Equal profiles hash alike. */
  lemma ProfileHashConsistent(a: Profile, o: object?, strHash: string -> int)
    requires a.Equals(o)
    ensures o is Profile && a.HashCode(strHash) == (o as Profile).HashCode(strHash)
  {
  }

  /** `User`: an account as a user lookup, a timeline or a list returns it. */
  class User {
    var id: int
    var name: Option<string>
    var screenName: Option<string>
    var location: Option<string>
    var description: Option<string>
    var url: Option<string>
    var isProtected: bool
    var followersCount: int
    var status: Status?
    var profile: Profile?
    var friendsCount: int
    var createdAt: Option<Date>
    var favouritesCount: int
    var utcOffset: int
    var timeZone: Option<string>
    var statusesCount: int
    var isGeoEnabled: bool
    var isVerified: bool
    var rateLimitStatus: Option<RateLimitStatus>

    /** `new User()`: no status (the state of a protected account) and no profile. */
    constructor ()
      ensures id == 0 && name == None && screenName == None && location == None
      ensures description == None && url == None && !isProtected && followersCount == 0
      ensures status == null && profile == null && friendsCount == 0 && createdAt == None
      ensures favouritesCount == 0 && utcOffset == 0 && timeZone == None && statusesCount == 0
      ensures !isGeoEnabled && !isVerified && rateLimitStatus == None
    {
      id := 0;
      name := None;
      screenName := None;
      location := None;
      description := None;
      url := None;
      isProtected := false;
      followersCount := 0;
      status := null;
      profile := null;
      friendsCount := 0;
      createdAt := None;
      favouritesCount := 0;
      utcOffset := 0;
      timeZone := None;
      statusesCount := 0;
      isGeoEnabled := false;
      isVerified := false;
      rateLimitStatus := None;
    }

    method SetId(id: int)
      modifies this`id
      ensures this.id == id
    {
      this.id := id;
    }

    method SetName(name: Option<string>)
      modifies this`name
      ensures this.name == name
    {
      this.name := name;
    }

    method SetScreenName(screenName: Option<string>)
      modifies this`screenName
      ensures this.screenName == screenName
    {
      this.screenName := screenName;
    }

    method SetLocation(location: Option<string>)
      modifies this`location
      ensures this.location == location
    {
      this.location := location;
    }

    method SetDescription(description: Option<string>)
      modifies this`description
      ensures this.description == description
    {
      this.description := description;
    }

    method SetURL(url: Option<string>)
      modifies this`url
      ensures this.url == url
    {
      this.url := url;
    }

    method SetProtected(isProtected: bool)
      modifies this`isProtected
      ensures this.isProtected == isProtected
    {
      this.isProtected := isProtected;
    }

    method SetFollowersCount(followersCount: int)
      modifies this`followersCount
      ensures this.followersCount == followersCount
    {
      this.followersCount := followersCount;
    }

    method SetStatus(status: Status?)
      modifies this`status
      ensures this.status == status
    {
      this.status := status;
    }

    method SetProfile(profile: Profile?)
      modifies this`profile
      ensures this.profile == profile
    {
      this.profile := profile;
    }

    method SetFriendsCount(friendsCount: int)
      modifies this`friendsCount
      ensures this.friendsCount == friendsCount
    {
      this.friendsCount := friendsCount;
    }

    method SetCreatedAt(createdAt: Option<Date>)
      modifies this`createdAt
      ensures this.createdAt == createdAt
    {
      this.createdAt := createdAt;
    }

    method SetFavouritesCount(favouritesCount: int)
      modifies this`favouritesCount
      ensures this.favouritesCount == favouritesCount
    {
      this.favouritesCount := favouritesCount;
    }

    method SetUtcOffset(utcOffset: int)
      modifies this`utcOffset
      ensures this.utcOffset == utcOffset
    {
      this.utcOffset := utcOffset;
    }

    method SetTimeZone(timeZone: Option<string>)
      modifies this`timeZone
      ensures this.timeZone == timeZone
    {
      this.timeZone := timeZone;
    }

    method SetStatusesCount(statusesCount: int)
      modifies this`statusesCount
      ensures this.statusesCount == statusesCount
    {
      this.statusesCount := statusesCount;
    }

    method SetGeoEnabled(isGeoEnabled: bool)
      modifies this`isGeoEnabled
      ensures this.isGeoEnabled == isGeoEnabled
    {
      this.isGeoEnabled := isGeoEnabled;
    }

    method SetVerified(isVerified: bool)
      modifies this`isVerified
      ensures this.isVerified == isVerified
    {
      this.isVerified := isVerified;
    }

    method SetRateLimitStatus(rateLimitStatus: Option<RateLimitStatus>)
      modifies this`rateLimitStatus
      ensures this.rateLimitStatus == rateLimitStatus
    {
      this.rateLimitStatus := rateLimitStatus;
    }

    /** `hashCode`: the id itself. */
    function HashCode(): (h: int)
      reads this
      ensures h == id
    {
      id
    }

    /** `equals`: false for null, true for itself, otherwise any `User` with the same id. */
    predicate Equals(o: object?)
      reads this, o
      ensures Equals(o) <==> o is User && (o as User).id == id
      ensures o == null ==> !Equals(o)
      ensures o == this ==> Equals(o)
    {
      if o == null then false
      else if this == o then true
      else o is User && (o as User).id == id
    }

    /** `deepEquals`: the identity shortcut, then every field but the rate limit, texts
        and dates null-safely, the profile by `Profile.equals`. The latest statuses are
        compared by `statusDeepEquals`, which the source calls but does not define. */
    predicate DeepEquals(o: object?, statusDeepEquals: (Status, Status?) -> bool)
      reads this, o, profile, if o is User then (o as User).profile else null
      ensures DeepEquals(o, statusDeepEquals) ==> Equals(o)
      ensures o == this ==> DeepEquals(o, statusDeepEquals)
      ensures o == null || !(o is User) ==> !DeepEquals(o, statusDeepEquals)
      ensures o is User && o != this && (o as User).id != id ==> !DeepEquals(o, statusDeepEquals)
    {
      if this == o then true
      else if o == null || !(o is User) then false
      else
        var user := o as User;
        && favouritesCount == user.favouritesCount
        && followersCount == user.followersCount
        && friendsCount == user.friendsCount
        && id == user.id
        && isGeoEnabled == user.isGeoEnabled
        && isProtected == user.isProtected
        && isVerified == user.isVerified
        && statusesCount == user.statusesCount
        && utcOffset == user.utcOffset
        && createdAt == user.createdAt
        && description == user.description
        && location == user.location
        && name == user.name
        && (if profile != null then profile.Equals(user.profile) else user.profile == null)
        && screenName == user.screenName
        && (if status != null then statusDeepEquals(status, user.status) else user.status == null)
        && timeZone == user.timeZone
        && url == user.url
    }
  }

  /** Equal users hash alike. */
  lemma UserHashConsistent(a: User, o: object?)
    requires a.Equals(o)
    ensures o is User && a.HashCode() == (o as User).HashCode()
  {
  }

  /** Two users that differ only in a null-versus-present text field are not deeply equal,
      though they are equal: deep equality distinguishes null from every string. */
  lemma DeepEqualsSeparatesNullName(a: User, b: User, sde: (Status, Status?) -> bool)
    requires a != b && a.id == b.id && a.name == None && b.name.Some?
    ensures a.Equals(b) && !a.DeepEquals(b, sde)
  {
  }
}
