/** The chat page: the contact list search and sending a message into the open
    conversation. */
module Chat {
  import opened Js
  import opened Seqs

  datatype Contact = Contact(
    id: nat,
    name: string,
    avatar: string,
    lastMessage: string,
    time: string,
    unread: nat,
    online: bool)

  const Avatar := "/placeholder.svg?height=40&width=40"

  /** The page's sample contacts, in order. */
  const Contacts: seq<Contact> := [
    Contact(1, "John Smith", Avatar, "I'll be there at 2 PM tomorrow", "10:30 AM", 2, true),
    Contact(2, "Sarah Johnson", Avatar, "Can you send me the details?", "Yesterday", 0, false),
    Contact(3, "Mike Williams", Avatar, "The job is complete. Please review.", "Yesterday", 0, true),
    Contact(4, "Emily Davis", Avatar, "I'm available next week", "2 days ago", 0, false),
    Contact(5, "Robert Brown", Avatar, "Thanks for the opportunity", "3 days ago", 0, true)
  ]

  /** Who wrote a message: a contact (by id) or the viewer ("me"). */
  datatype Sender = FromContact(contactId: nat) | Me

  datatype Message = Message(id: int, sender: Sender, text: string, time: string)

  /** The seed conversation, numbered 1 to 7. */
  const Messages: seq<Message> := [
    Message(1, FromContact(1), "Hi there! I saw your job posting for a plumber and I'm interested.", "10:00 AM"),
    Message(2, Me, "Hello! Thanks for reaching out. Do you have experience with residential plumbing?", "10:05 AM"),
    Message(3, FromContact(1), "Yes, I've been working as a residential plumber for over 5 years. I specialize in repairs and installations.", "10:08 AM"),
    Message(4, Me, "That's great! Are you available to come take a look at the job this week?", "10:10 AM"),
    Message(5, FromContact(1), "I'm available tomorrow afternoon or Thursday morning. Would either of those work for you?", "10:15 AM"),
    Message(6, Me, "Tomorrow afternoon works perfectly. How about 2 PM?", "10:20 AM"),
    Message(7, FromContact(1), "I'll be there at 2 PM tomorrow. Could you send me the address?", "10:30 AM")
  ]

  /** `filteredContacts` over `contacts`: those whose name contains the term, ignoring
      case, in order. */
  function FilterContacts(contacts: seq<Contact>, term: string): (r: seq<Contact>)
    ensures IsSubsequence(r, contacts)
    ensures forall c :: c in r <==> c in contacts && OccursIn(ToLowerCase(term), ToLowerCase(c.name))
    ensures forall c :: multiset(r)[c] ==
                        (if OccursIn(ToLowerCase(term), ToLowerCase(c.name)) then multiset(contacts)[c] else 0)
  {
    Filter(contacts, (c: Contact) => Includes(ToLowerCase(c.name), ToLowerCase(term)))
  }

  /** `filteredContacts` on the page: its own contacts whose name contains the term. */
  function FilteredContacts(term: string): (r: seq<Contact>)
    ensures IsSubsequence(r, Contacts)
    ensures forall c :: c in r <==> c in Contacts && OccursIn(ToLowerCase(term), ToLowerCase(c.name))
  {
    FilterContacts(Contacts, term)
  }

  /** The conversation and the message input. */
  datatype ChatState = ChatState(messages: seq<Message>, input: string)

  /** `handleSendMessage` at time `now` (the formatted local time): a blank input does
      nothing; otherwise the input, untrimmed, is appended as message number
      |messages| + 1 from "me", and the input is cleared. */
  function SendMessage(s: ChatState, now: string): (r: ChatState)
    ensures IsBlank(s.input) ==> r == s
    ensures !IsBlank(s.input) ==>
      && |r.messages| == |s.messages| + 1
      && r.messages[..|s.messages|] == s.messages
      && r.messages[|s.messages|] == Message(|s.messages| + 1, Me, s.input, now)
      && r.input == ""
  {
    if Trim(s.input) != "" then
      ChatState(s.messages + [Message(|s.messages| + 1, Me, s.input, now)], "")
    else s
  }

  /** What the user does on the page: type into the input, or press send. */
  datatype Action = Type(text: string) | Send(now: string)

  /** One action: typing only replaces the input; sending adds at most one message and
      keeps the earlier ones. */
  function Step(s: ChatState, a: Action): (r: ChatState)
    ensures a.Type? ==> r.messages == s.messages && r.input == a.text
    ensures s.messages <= r.messages && |r.messages| <= |s.messages| + 1
  {
    match a
    case Type(text) => s.(input := text)
    case Send(now) => SendMessage(s, now)
  }

  /** The state after a sequence of actions: earlier messages are never removed or
      changed, and each action adds at most one. */
  function Run(s: ChatState, actions: seq<Action>): (r: ChatState)
    ensures s.messages <= r.messages
    ensures |r.messages| <= |s.messages| + |actions|
    decreases |actions|
  {
    if actions == [] then s else Run(Step(s, actions[0]), actions[1..])
  }

  /** Messages numbered 1, 2, ... in order. */
  predicate Numbered(ms: seq<Message>) {
    forall k :: 0 <= k < |ms| ==> ms[k].id == k + 1
  }

  // ---------------------------------------------------------------------------
  // Properties

  /** An empty search keeps every contact, in order. */
  lemma {:induction false} EmptySearchKeepsAllContacts(contacts: seq<Contact>)
    ensures FilterContacts(contacts, "") == contacts
  {
    forall c | c in contacts ensures Includes(ToLowerCase(c.name), ToLowerCase("")) {
      IncludesEmpty(ToLowerCase(c.name));
    }
    FilterAll(contacts, (c: Contact) => Includes(ToLowerCase(c.name), ToLowerCase("")));
  }

  /** The search ignores the case of the term. */
  lemma {:induction false} SearchIgnoresCase(contacts: seq<Contact>, term: string)
    ensures FilterContacts(contacts, term) == FilterContacts(contacts, ToLowerCase(term))
  {
    ToLowerCaseIdempotent(term);
    FilterSameTest(contacts, (c: Contact) => Includes(ToLowerCase(c.name), ToLowerCase(term)),
                   (c: Contact) => Includes(ToLowerCase(c.name), ToLowerCase(ToLowerCase(term))));
  }

  /** The seed conversation is numbered 1 to 7. */
  lemma SeedNumbered()
    ensures Numbered(Messages)
  {
  }

  /** Sending keeps the conversation numbered. */
  lemma SendKeepsNumbering(s: ChatState, now: string)
    requires Numbered(s.messages)
    ensures Numbered(SendMessage(s, now).messages)
  {
  }

  /** From the seed conversation, whatever the user types and sends, the messages stay
      numbered 1..n, so no two share an id. */
  lemma {:induction false} RunKeepsNumbering(s: ChatState, actions: seq<Action>)
    requires Numbered(s.messages)
    ensures Numbered(Run(s, actions).messages)
    ensures forall i, j :: 0 <= i < j < |Run(s, actions).messages| ==>
              Run(s, actions).messages[i].id != Run(s, actions).messages[j].id
    decreases |actions|
  {
    if actions != [] {
      var next := Step(s, actions[0]);
      if actions[0].Send? {
        SendKeepsNumbering(s, actions[0].now);
      }
      RunKeepsNumbering(next, actions[1..]);
    }
  }
}
