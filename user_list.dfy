/** `UserList`: a named list of accounts curated by one user. */
module UserLists {
  import opened Wrappers
  import opened ValueTypes
  import opened StatusAndUser

  class UserList {
    var id: int
    var name: Option<string>
    var fullName: Option<string>
    var slug: Option<string>
    var description: Option<string>
    var subscriberCount: int
    var memberCount: int
    var uri: Option<string>
    var mode: Option<string>
    var user: User?
    var rateLimitStatus: Option<RateLimitStatus>

    /** `new UserList()`: no owner yet, every text null. */
    constructor ()
      ensures id == 0 && name == None && fullName == None && slug == None
      ensures description == None && subscriberCount == 0 && memberCount == 0
      ensures uri == None && mode == None && user == null && rateLimitStatus == None
    {
      id := 0;
      name := None;
      fullName := None;
      slug := None;
      description := None;
      subscriberCount := 0;
      memberCount := 0;
      uri := None;
      mode := None;
      user := null;
      rateLimitStatus := None;
    }

    method SetId(id: int)
      modifies this`id
      ensures this.id == id
    {
      this.id := id;
    }

    method SetName(name: Option<string>)
      modifies this`name
      ensures this.name == name
    {
      this.name := name;
    }

    method SetFullName(fullName: Option<string>)
      modifies this`fullName
      ensures this.fullName == fullName
    {
      this.fullName := fullName;
    }

    method SetSlug(slug: Option<string>)
      modifies this`slug
      ensures this.slug == slug
    {
      this.slug := slug;
    }

    method SetDescription(description: Option<string>)
      modifies this`description
      ensures this.description == description
    {
      this.description := description;
    }

    method SetSubscriberCount(subscriberCount: int)
      modifies this`subscriberCount
      ensures this.subscriberCount == subscriberCount
    {
      this.subscriberCount := subscriberCount;
    }

    method SetMemberCount(memberCount: int)
      modifies this`memberCount
      ensures this.memberCount == memberCount
    {
      this.memberCount := memberCount;
    }

    /** The URI is kept as text; `getURI` builds a `java.net.URI` from it, which is not
        modelled. */
    method SetURI(uri: Option<string>)
      modifies this`uri
      ensures this.uri == uri
    {
      this.uri := uri;
    }

    /** The mode is stored verbatim: any text is accepted, not only "public"/"private". */
    method SetMode(mode: Option<string>)
      modifies this`mode
      ensures this.mode == mode
    {
      this.mode := mode;
    }

    method SetUser(user: User?)
      modifies this`user
      ensures this.user == user
    {
      this.user := user;
    }

    method SetRateLimitStatus(rateLimitStatus: Option<RateLimitStatus>)
      modifies this`rateLimitStatus
      ensures this.rateLimitStatus == rateLimitStatus
    {
      this.rateLimitStatus := rateLimitStatus;
    }

    /** `hashCode`: the id itself. */
    function HashCode(): (h: int)
      reads this
      ensures h == id
    {
      id
    }

    /** `equals`: false for null, true for itself, otherwise any `UserList` with the same id. */
    predicate Equals(o: object?)
      reads this, o
      ensures Equals(o) <==> o is UserList && (o as UserList).id == id
      ensures o == null ==> !Equals(o)
      ensures o == this ==> Equals(o)
    {
      if o == null then false
      else if this == o then true
      else o is UserList && (o as UserList).id == id
    }
  }

  /** Equal lists hash alike. */
  lemma UserListHashConsistent(a: UserList, o: object?)
    requires a.Equals(o)
    ensures o is UserList && a.HashCode() == (o as UserList).HashCode()
  {
  }
}
