/** The host-owned book of accounts: what makes one valid, how an update replaces it, and the targets and
    bindings derived from it.  An account's target never changes, whatever edits are made. */
module Roles {
  import opened Text
  import opened Wrappers
  import Protocol

  datatype Role = Owner | Friend | Stranger | Blocked

  datatype Scope = OwnerOnly | Registered

  datatype Contact = Contact(qqId: string, name: string, role: Role, enabled: bool)

  datatype RoleBook = RoleBook(version: nat, scope: Scope, legacyOwner: string, contacts: map<string, Contact>)

  datatype Update = Update(version: nat, scope: Scope, contacts: seq<Contact>)

  datatype Error = BadShape | BadContact | Stale | Duplicate | VersionOverflow

  datatype Peer = Peer(kind: string, id: string)

  const MAX_CONTACTS := 128
  const MAX_ID_BYTES := 20
  const MAX_NAME_BYTES := 240
  const VERSION_LIMIT := 0x1_0000_0000_0000_0000

  const OWNER_TARGET := "qq_owner"
  const PRIVATE_PREFIX := "qq_private_"

  function Relationship(role: Role): string {
    match role
    case Owner => "owner"
    case Friend => "friend"
    case Stranger => "stranger"
    case Blocked => "blocked"
  }

  function Seed(owner: string): RoleBook {
    RoleBook(1, OwnerOnly, owner, map[owner := Contact(owner, "主人", Owner, true)])
  }

  function TargetOf(book: RoleBook, id: string): string {
    if id == book.legacyOwner then OWNER_TARGET else PRIVATE_PREFIX + id
  }

  predicate Allows(book: RoleBook, contact: Contact) {
    contact.enabled && contact.role != Blocked && (book.scope == Registered || contact.role == Owner)
  }

  // ---- validation ----

  function Owners(contacts: map<string, Contact>): set<string> {
    set id | id in contacts && contacts[id].role == Owner
  }

  predicate ContactFits(id: string, c: Contact, bot: string) {
    && id == c.qqId && id != "" && Utf8Length(id) <= MAX_ID_BYTES && id[0] != '0'
    && (forall i | 0 <= i < |id| :: '0' <= id[i] <= '9')
    && id != bot && Trim(c.name) != "" && Utf8Length(c.name) <= MAX_NAME_BYTES
    && (c.role == Owner ==> c.enabled)
  }

  function Validate(contacts: map<string, Contact>, bot: string): Result<(), Error> {
    if |contacts| == 0 || |contacts| > MAX_CONTACTS || |Owners(contacts)| != 1 then Err(BadShape)
    else if exists id | id in contacts :: !ContactFits(id, contacts[id], bot) then Err(BadContact)
    else Ok(())
  }

  predicate Valid(book: RoleBook, bot: string) { Validate(book.contacts, bot).Ok? }

  // ---- updates ----

  predicate HasDuplicate(contacts: seq<Contact>) {
    exists i, j :: 0 <= i < j < |contacts| && contacts[i].qqId == contacts[j].qqId
  }

  /** Contacts collected by account, later ones over earlier ones. */
  function ByAccount(contacts: seq<Contact>): map<string, Contact> {
    if contacts == [] then map[]
    else
      var last := contacts[|contacts| - 1];
      ByAccount(contacts[..|contacts| - 1])[last.qqId := last]
  }

  function Updated(book: RoleBook, update: Update, bot: string): Result<RoleBook, Error> {
    if update.version != book.version then Err(Stale)
    else if HasDuplicate(update.contacts) then Err(Duplicate)
    else if book.version + 1 >= VERSION_LIMIT then Err(VersionOverflow)
    else
      var next := RoleBook(book.version + 1, update.scope, book.legacyOwner, ByAccount(update.contacts));
      var checked := Validate(next.contacts, bot);
      if checked.Ok? then Ok(next) else Err(checked.error)
  }

  /** Saving an update: a rejected one leaves the book as it was. */
  function Saved(book: RoleBook, update: Update, bot: string): RoleBook {
    var next := Updated(book, update, bot);
    if next.Ok? then next.value else book
  }

  function SavedAll(book: RoleBook, updates: seq<Update>, bot: string): RoleBook {
    if updates == [] then book
    else Saved(SavedAll(book, updates[..|updates| - 1], bot), updates[|updates| - 1], bot)
  }

  // ---- directory and bindings ----

  /** Every contact is filed under its own account, as in any validated book. */
  predicate Keyed(book: RoleBook) {
    forall id | id in book.contacts :: book.contacts[id].qqId == id
  }

  lemma TargetsDiffer(book: RoleBook, a: string, b: string)
    ensures TargetOf(book, a) == TargetOf(book, b) ==> a == b
  {
    var x, y := TargetOf(book, a), TargetOf(book, b);
    if a != book.legacyOwner {
      assert x[..|PRIVATE_PREFIX|] == PRIVATE_PREFIX && x[|PRIVATE_PREFIX|..] == a;
    }
    if b != book.legacyOwner {
      assert y[..|PRIVATE_PREFIX|] == PRIVATE_PREFIX && y[|PRIVATE_PREFIX|..] == b;
    }
    assert OWNER_TARGET[3] != PRIVATE_PREFIX[3];
  }

  lemma TargetsInjective(book: RoleBook)
    ensures forall a: string, b: string :: TargetOf(book, a) == TargetOf(book, b) ==> a == b
  {
    forall a: string, b: string ensures TargetOf(book, a) == TargetOf(book, b) ==> a == b {
      TargetsDiffer(book, a, b);
    }
  }

  function ContactTarget(contact: Contact, bot: string): Protocol.Target {
    Protocol.Target.Target(contact.name + " · QQ私聊", bot, Relationship(contact.role) + ":" + contact.qqId, "napcat")
  }

  function ListedTargets(book: RoleBook, bot: string, includeInactive: bool): map<string, Protocol.Target> {
    TargetsInjective(book);
    map id | id in book.contacts && (includeInactive || Allows(book, book.contacts[id]))
      :: TargetOf(book, id) := ContactTarget(book.contacts[id], bot)
  }

  function Directory(book: RoleBook, base: map<string, Protocol.Target>, bot: string, includeInactive: bool): map<string, Protocol.Target>
    requires Keyed(book)
  {
    (map key | key in base && base[key].transport != "napcat" :: base[key]) + ListedTargets(book, bot, includeInactive)
  }

  function Bindings(book: RoleBook): map<string, Peer>
    requires Keyed(book)
  {
    TargetsInjective(book);
    map id | id in book.contacts && Allows(book, book.contacts[id])
      :: TargetOf(book, id) := Peer("private", book.contacts[id].qqId)
  }

  // ---- over any chain of edits ----

  lemma ValidKeyed(book: RoleBook, bot: string)
    requires Valid(book, bot)
    ensures Keyed(book)
  {
    forall id | id in book.contacts ensures book.contacts[id].qqId == id {
      assert ContactFits(id, book.contacts[id], bot);
    }
  }

  /** Whatever is submitted, accepted or not, every account keeps its target and the book stays valid. */
  lemma {:induction false} AudienceStable(book: RoleBook, updates: seq<Update>, bot: string, id: string)
    requires Valid(book, bot)
    ensures TargetOf(SavedAll(book, updates, bot), id) == TargetOf(book, id)
    ensures Valid(SavedAll(book, updates, bot), bot)
  {
    if updates != [] {
      AudienceStable(book, updates[..|updates| - 1], bot, id);
    }
  }

  /** Two accounts never share a target, not even accounts of different moments of the chain. */
  lemma NoSharedAudience(book: RoleBook, earlier: seq<Update>, later: seq<Update>, bot: string, a: string, b: string)
    requires Valid(book, bot)
    ensures TargetOf(SavedAll(book, earlier, bot), a) == TargetOf(SavedAll(book, later, bot), b) <==> a == b
  {
    AudienceStable(book, earlier, bot, a);
    AudienceStable(book, later, bot, b);
    TargetsDiffer(book, a, b);
  }

  lemma {:induction false} VersionGrows(book: RoleBook, updates: seq<Update>, bot: string)
    ensures SavedAll(book, updates, bot).version >= book.version
  {
    if updates != [] {
      VersionGrows(book, updates[..|updates| - 1], bot);
    }
  }

  /** An update that was once accepted is stale ever after. */
  lemma AcceptedOnce(book: RoleBook, update: Update, updates: seq<Update>, bot: string)
    requires Updated(book, update, bot).Ok?
    ensures Updated(SavedAll(Saved(book, update, bot), updates, bot), update, bot) == Err(Stale)
  {
    VersionGrows(Saved(book, update, bot), updates, bot);
  }

  // ---- what an accepted update says ----

  lemma {:induction false} AccountsCollected(contacts: seq<Contact>)
    ensures forall id :: id in ByAccount(contacts) <==> exists i :: 0 <= i < |contacts| && contacts[i].qqId == id
    ensures !HasDuplicate(contacts) ==> forall i | 0 <= i < |contacts| ::
              contacts[i].qqId in ByAccount(contacts) && ByAccount(contacts)[contacts[i].qqId] == contacts[i]
  {
    if contacts != [] {
      var n := |contacts| - 1;
      var shorter := contacts[..n];
      AccountsCollected(shorter);
      assert HasDuplicate(shorter) ==> HasDuplicate(contacts);
      forall id | id in ByAccount(contacts) ensures exists i :: 0 <= i < |contacts| && contacts[i].qqId == id {
        if id == contacts[n].qqId {
          assert contacts[n].qqId == id;
        } else {
          assert id in ByAccount(shorter);
          var i :| 0 <= i < |shorter| && shorter[i].qqId == id;
          assert contacts[i].qqId == id;
        }
      }
      forall i | 0 <= i < |contacts| ensures contacts[i].qqId in ByAccount(contacts) {
        assert i < n ==> shorter[i] == contacts[i];
      }
    }
  }

  /** An accepted update becomes the book, contact for contact, one version later; the legacy account stays. */
  lemma AcceptedIsWhatWasSent(book: RoleBook, update: Update, bot: string)
    requires Updated(book, update, bot).Ok?
    ensures var next := Updated(book, update, bot).value;
            && next.version == update.version + 1 < VERSION_LIMIT && next.scope == update.scope
            && next.legacyOwner == book.legacyOwner && Valid(next, bot)
            && (forall i | 0 <= i < |update.contacts| ::
                  update.contacts[i].qqId in next.contacts && next.contacts[update.contacts[i].qqId] == update.contacts[i])
            && (forall id | id in next.contacts :: exists i :: 0 <= i < |update.contacts| && update.contacts[i].qqId == id)
  {
    AccountsCollected(update.contacts);
  }

  // ---- the owner, the bindings and the directory ----

  lemma OneElement<T>(s: set<T>) returns (x: T)
    requires |s| == 1
    ensures s == {x}
  {
    x :| x in s;
    assert |s - {x}| == 0;
    assert s == {x} + (s - {x});
  }

  /** A valid book has exactly one owner, enabled, and always bound to its own account. */
  lemma OwnerAlwaysBound(book: RoleBook, bot: string) returns (owner: string)
    requires Valid(book, bot)
    ensures Owners(book.contacts) == {owner} && book.contacts[owner].enabled && Keyed(book)
    ensures TargetOf(book, owner) in Bindings(book) && Bindings(book)[TargetOf(book, owner)] == Peer("private", owner)
  {
    ValidKeyed(book, bot);
    owner := OneElement(Owners(book.contacts));
    assert owner in Owners(book.contacts);
    assert ContactFits(owner, book.contacts[owner], bot);
    BoundToItself(book, owner);
  }

  lemma BoundToItself(book: RoleBook, id: string)
    requires Keyed(book) && id in book.contacts
    ensures TargetOf(book, id) in Bindings(book) <==> Allows(book, book.contacts[id])
    ensures Allows(book, book.contacts[id]) ==> Bindings(book)[TargetOf(book, id)] == Peer("private", id)
  {
    TargetsInjective(book);
  }

  /** Bindings and the active directory agree: the same targets, each reaching its own account only. */
  lemma BindingsMatchDirectory(book: RoleBook, base: map<string, Protocol.Target>, bot: string, key: string)
    requires Keyed(book)
    ensures var directory := Directory(book, base, bot, false);
            && (key in Bindings(book) <==> key in directory && directory[key].transport == "napcat")
            && (key in Bindings(book) ==>
                  exists id :: id in book.contacts && Allows(book, book.contacts[id]) && key == TargetOf(book, id)
                               && Bindings(book)[key] == Peer("private", id)
                               && directory[key] == ContactTarget(book.contacts[id], bot) && directory[key].account == bot)
            && (key in base && base[key].transport != "napcat" && key !in Bindings(book) ==>
                  key in directory && directory[key] == base[key])
  {
    TargetsInjective(book);
    var directory := Directory(book, base, bot, false);
    if key in Bindings(book) {
      var id :| id in book.contacts && Allows(book, book.contacts[id]) && key == TargetOf(book, id);
      assert key in ListedTargets(book, bot, false);
      assert ListedTargets(book, bot, false)[key] == ContactTarget(book.contacts[id], bot);
    }
  }

  /** While only the owner is in scope, nobody else is bound, whatever the book lists. */
  lemma OwnerScopeBindsOwner(book: RoleBook, bot: string, key: string) returns (owner: string)
    requires Valid(book, bot) && book.scope == OwnerOnly
    ensures Owners(book.contacts) == {owner} && Keyed(book)
    ensures key in Bindings(book) <==> key == TargetOf(book, owner)
  {
    owner := OwnerAlwaysBound(book, bot);
    TargetsInjective(book);
    if key in Bindings(book) {
      var id :| id in book.contacts && Allows(book, book.contacts[id]) && key == TargetOf(book, id);
      assert id in Owners(book.contacts);
    }
  }

  /** A blocked or disabled contact is never bound, in any scope. */
  lemma BlockedNeverBound(book: RoleBook, id: string)
    requires Keyed(book) && id in book.contacts
    requires book.contacts[id].role == Blocked || !book.contacts[id].enabled
    ensures TargetOf(book, id) !in Bindings(book)
  {
    TargetsInjective(book);
  }

  /** The first book is valid exactly when the configured owner's id would be accepted, and its owner has the
      legacy target. */
  lemma SeedValid(owner: string, bot: string)
    ensures Valid(Seed(owner), bot) <==> ContactFits(owner, Seed(owner).contacts[owner], bot)
    ensures TargetOf(Seed(owner), owner) == OWNER_TARGET
  {
    var book := Seed(owner);
    assert book.contacts.Keys == {owner};
    assert |book.contacts| == |book.contacts.Keys| == 1;
    assert Owners(book.contacts) == {owner};
  }
}
