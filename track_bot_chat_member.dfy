/**
 * The handlers that follow the bot in and out of group chats: joining
 * re-activates the chat's address book, leaving deactivates it, and a group
 * upgraded to a supergroup moves its book to the new chat id. A TTL cache of
 * migrated chat ids keeps the join and leave events Telegram sends during a
 * migration from touching the book. Time is an explicit clock in
 * milliseconds; the pauses the handlers take before looking at the cache
 * are folded into the time they are given.
 */
module TrackBotChatMember {
  import opened Wrappers
  import opened Addressbook
  import opened DmImplementation

  /** `TTLCache(maxsize=inf, ttl=10.0)`: ten seconds. */
  const CacheTtl: int := 10000

  /** `chat_id in cache.keys()`: an entry expires once the clock reaches its insertion time plus the TTL. */
  predicate Cached(cache: map<int, int>, chatId: int, now: int)
  {
    chatId in cache && now < cache[chatId] + CacheTtl
  }

  /** `event.chat.title or event.from_user.full_name`. */
  function JoinTitle(chatTitle: Option<string>, fullName: string): (r: string)
    ensures chatTitle.Some? && chatTitle.value != "" ==> r == chatTitle.value
    ensures chatTitle.None? || chatTitle.value == "" ==> r == fullName
  {
    if chatTitle.Some? && chatTitle.value != "" then chatTitle.value else fullName
  }

  /** The books after the bot joined a chat it is not suppressed in: only a stored inactive book is re-activated. */
  function JoinBooks(books: map<int, AddressBook>, chatId: int, title: string, now: int): (r: map<int, AddressBook>)
    ensures r.Keys == books.Keys
    ensures forall id :: id in books && id != chatId ==> r[id] == books[id]
    ensures chatId in books && !books[chatId].isActive ==>
      r[chatId] == AddressBook(title, true, now, now)
    ensures chatId in books && books[chatId].isActive ==> r[chatId] == books[chatId]
  {
    if chatId in books && !books[chatId].isActive then UpsertAddressBook(books, chatId, title, true, now)
    else books
  }

  /** The books after the bot left a chat it is not suppressed in: only a stored active book is deactivated, keeping its title. */
  function LeaveBooks(books: map<int, AddressBook>, chatId: int, now: int): (r: map<int, AddressBook>)
    ensures r.Keys == books.Keys
    ensures forall id :: id in books && id != chatId ==> r[id] == books[id]
    ensures chatId in books && books[chatId].isActive ==>
      r[chatId] == AddressBook(books[chatId].title, false, now, now)
    ensures chatId in books && !books[chatId].isActive ==> r[chatId] == books[chatId]
  {
    if chatId in books && books[chatId].isActive then UpsertAddressBook(books, chatId, books[chatId].title, false, now)
    else books
  }

  /** A second join changes nothing, whenever it comes and whatever title it carries. */
  lemma JoinIdempotent(books: map<int, AddressBook>, chatId: int, title: string, now: int, title': string, later: int)
    ensures JoinBooks(JoinBooks(books, chatId, title, now), chatId, title', later) == JoinBooks(books, chatId, title, now)
  {
  }

  /** A second leave changes nothing. */
  lemma LeaveIdempotent(books: map<int, AddressBook>, chatId: int, now: int, later: int)
    ensures LeaveBooks(LeaveBooks(books, chatId, now), chatId, later) == LeaveBooks(books, chatId, now)
  {
  }

  /** Join then leave puts a stored book back to inactive; the title the join wrote stays. */
  lemma JoinThenLeave(books: map<int, AddressBook>, chatId: int, title: string, now: int, later: int)
    requires chatId in books
    ensures var after := LeaveBooks(JoinBooks(books, chatId, title, now), chatId, later);
      && after.Keys == books.Keys
      && !after[chatId].isActive
      && after[chatId].title == (if books[chatId].isActive then books[chatId].title else title)
  {
  }

  /** Neither event creates a book for a chat that has none. */
  lemma EventsNeverCreateBooks(books: map<int, AddressBook>, chatId: int, title: string, now: int)
    requires chatId !in books
    ensures JoinBooks(books, chatId, title, now) == books
    ensures LeaveBooks(books, chatId, now) == books
  {
  }

  /** A migration at `t0` suppresses events for the new id exactly until `t0` plus the TTL. */
  lemma MigrationWindow(cache: map<int, int>, newId: int, t0: int, t: int)
    ensures Cached(cache[newId := t0], newId, t) <==> t < t0 + CacheTtl
  {
  }

  /** The module-level cache of migrated chat ids and their insertion times. */
  class ChatMemberTracker {
    var cache: map<int, int>

    constructor ()
      ensures cache == map[]
    {
      cache := map[];
    }

    /** `on_bot_join`: returns whether the event got past the cache. */
    method OnBotJoin(db: Database, chatId: int, chatTitle: Option<string>, fullName: string, now: int)
      returns (handled: bool)
      modifies db
      ensures handled <==> !Cached(cache, chatId, now)
      ensures handled ==> db.books == JoinBooks(old(db.books), chatId, JoinTitle(chatTitle, fullName), now)
      ensures !handled ==> db.books == old(db.books)
      ensures db.accounts == old(db.accounts) && db.statements == old(db.statements)
      ensures db.transactions == old(db.transactions) && db.entries == old(db.entries)
    {
      if Cached(cache, chatId, now) {
        return false;
      }
      var title := JoinTitle(chatTitle, fullName);
      var addressBook := db.ReadAddressBookById(chatId);
      if addressBook.Some? && !addressBook.value.isActive {
        var _ := db.UpsertAddressBookRow(chatId, title, !addressBook.value.isActive, now);
      }
      return true;
    }

    /** `on_bot_leave`: returns whether the event got past the cache. */
    method OnBotLeave(db: Database, chatId: int, now: int) returns (handled: bool)
      modifies db
      ensures handled <==> !Cached(cache, chatId, now)
      ensures handled ==> db.books == LeaveBooks(old(db.books), chatId, now)
      ensures !handled ==> db.books == old(db.books)
      ensures db.accounts == old(db.accounts) && db.statements == old(db.statements)
      ensures db.transactions == old(db.transactions) && db.entries == old(db.entries)
    {
      if Cached(cache, chatId, now) {
        return false;
      }
      var addressBook := db.ReadAddressBookById(chatId);
      if addressBook.Some? && addressBook.value.isActive {
        var _ := db.UpsertAddressBookRow(chatId, addressBook.value.title, !addressBook.value.isActive, now);
      }
      return true;
    }

    /**
     * `group_to_supegroup_migration`: re-key the book, then remember the new
     * id; a primary-key violation from the update ends the handler before the
     * cache is touched.
     */
    method Migrate(db: Database, oldId: int, newId: int, now: int) returns (r: Result<Option<AddressBook>, DbError>)
      requires forall k :: k in db.entries ==> k.bookId in db.books
      modifies this, db
      ensures var u := UpdateBookId(old(db.books), old(db.entries), oldId, newId, now);
        && (r.Ok? <==> u.Ok?)
        && (u.Ok? ==> db.books == u.value.0 && db.entries == u.value.1 && r.value == u.value.2)
        && (u.Err? ==> db.books == old(db.books) && db.entries == old(db.entries))
      ensures r.Ok? ==> cache == old(cache)[newId := now]
      ensures r.Err? ==> cache == old(cache)
      ensures db.accounts == old(db.accounts) && db.statements == old(db.statements)
      ensures db.transactions == old(db.transactions)
    {
      r := db.UpdateAddressBookId(oldId, newId, now);
      if r.Err? {
        return;
      }
      cache := cache[newId := now];
    }
  }
}
