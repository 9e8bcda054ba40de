/** `DirectMessage`: a private message between two users. */
module DirectMessages {
  import opened Wrappers
  import opened ParseUtil
  import opened ValueTypes
  import opened StatusAndUser

  class DirectMessage {
    var id: int
    var text: Option<string>
    var senderId: int
    var recipientId: int
    var createdAt: Option<Date>
    var senderScreenName: Option<string>
    var recipientScreenName: Option<string>
    var sender: User?
    var recipient: User?
    var rateLimitStatus: Option<RateLimitStatus>

    constructor ()
      ensures id == 0 && text == None && senderId == 0 && recipientId == 0
      ensures createdAt == None && senderScreenName == None && recipientScreenName == None
      ensures sender == null && recipient == null && rateLimitStatus == None
    {
      id := 0;
      text := None;
      senderId := 0;
      recipientId := 0;
      createdAt := None;
      senderScreenName := None;
      recipientScreenName := None;
      sender := null;
      recipient := null;
      rateLimitStatus := None;
    }

    method SetId(id: int)
      modifies this`id
      ensures this.id == id
    {
      this.id := id;
    }

    method SetText(text: Option<string>)
      modifies this`text
      ensures this.text == text
    {
      this.text := text;
    }

    /** The sender's id is a field of its own: setting it leaves `sender` as it was. */
    method SetSenderId(senderId: int)
      modifies this`senderId
      ensures this.senderId == senderId
    {
      this.senderId := senderId;
    }

    method SetRecipientId(recipientId: int)
      modifies this`recipientId
      ensures this.recipientId == recipientId
    {
      this.recipientId := recipientId;
    }

    method SetCreatedAt(createdAt: Option<Date>)
      modifies this`createdAt
      ensures this.createdAt == createdAt
    {
      this.createdAt := createdAt;
    }

    method SetSenderScreenName(senderScreenName: Option<string>)
      modifies this`senderScreenName
      ensures this.senderScreenName == senderScreenName
    {
      this.senderScreenName := senderScreenName;
    }

    method SetRecipientScreenName(recipientScreenName: Option<string>)
      modifies this`recipientScreenName
      ensures this.recipientScreenName == recipientScreenName
    {
      this.recipientScreenName := recipientScreenName;
    }

    /** Setting the sender object leaves `senderId` as it was. */
    method SetSender(sender: User?)
      modifies this`sender
      ensures this.sender == sender
    {
      this.sender := sender;
    }

    method SetRecipient(recipient: User?)
      modifies this`recipient
      ensures this.recipient == recipient
    {
      this.recipient := recipient;
    }

    method SetRateLimitStatus(rateLimitStatus: Option<RateLimitStatus>)
      modifies this`rateLimitStatus
      ensures this.rateLimitStatus == rateLimitStatus
    {
      this.rateLimitStatus := rateLimitStatus;
    }

    /** `hashCode`: the id itself. */
    function HashCode(): (h: int)
      reads this
      ensures h == id
    {
      id
    }

    /** `equals`: false for null, true for itself, otherwise any `DirectMessage` with the
        same id. */
    predicate Equals(o: object?)
      reads this, o
      ensures Equals(o) <==> o is DirectMessage && (o as DirectMessage).id == id
      ensures o == null ==> !Equals(o)
      ensures o == this ==> Equals(o)
    {
      if o == null then false
      else if this == o then true
      else o is DirectMessage && (o as DirectMessage).id == id
    }
  }

  /** Equal messages hash alike. */
  lemma DirectMessageHashConsistent(a: DirectMessage, o: object?)
    requires a.Equals(o)
    ensures o is DirectMessage && a.HashCode() == (o as DirectMessage).HashCode()
  {
  }
}
