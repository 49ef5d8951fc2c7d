/** The per-user persistence adapter (services/storageService.ts).

    The browser's key/value store is a map from key to a stored list; every
    list lives under a key built from its kind and the current user's id.
    `JSON.stringify`/`JSON.parse` are the identity here, and the artificial
    delays are left out. */
module Storage {
  import opened Wrappers
  import opened Types
  import opened Text

  const ChallengePrefix: string := "confi_challenges_"
  const AffirmationPrefix: string := "confi_affirmations_"
  const JournalPrefix: string := "confi_journal_"
  /** The one global key of the identity service (services/authService.ts). */
  const UsersKey: string := "confi_users"
  /** Only this many affirmations are kept, newest first. */
  const AffirmationCap: nat := 10

  /** One stored value: the parsed JSON array under a key. */
  datatype Slot =
    | ChallengeSlot(challenges: seq<Challenge>)
    | AffirmationSlot(affirmations: seq<Affirmation>)
    | JournalSlot(entries: seq<JournalEntry>)

  // ---------------------------------------------------------------------
  // Keys

  /** The user context; null and '' are the same "no user" to every operation. */
  predicate HasUser(userId: Option<string>) {
    userId.Some? && userId.value != ""
  }

  /** `currentUserId || 'guest'`. */
  function Namespace(userId: Option<string>): (r: string)
    ensures r != ""
    ensures HasUser(userId) ==> r == userId.value
  {
    if HasUser(userId) then userId.value else "guest"
  }

  function ChallengeKey(userId: Option<string>): string {
    ChallengePrefix + Namespace(userId)
  }

  function AffirmationKey(userId: Option<string>): string {
    AffirmationPrefix + Namespace(userId)
  }

  function JournalKey(userId: Option<string>): string {
    JournalPrefix + Namespace(userId)
  }

  /** Distinct users never share a key of any kind. */
  lemma KeysSeparateUsers(u: string, v: string)
    requires u != "" && v != "" && u != v
    ensures ChallengeKey(Some(u)) != ChallengeKey(Some(v))
    ensures AffirmationKey(Some(u)) != AffirmationKey(Some(v))
    ensures JournalKey(Some(u)) != JournalKey(Some(v))
  {
    if ChallengeKey(Some(u)) == ChallengeKey(Some(v)) {
      PrefixCancel(ChallengePrefix, u, v);
    }
    if AffirmationKey(Some(u)) == AffirmationKey(Some(v)) {
      PrefixCancel(AffirmationPrefix, u, v);
    }
    if JournalKey(Some(u)) == JournalKey(Some(v)) {
      PrefixCancel(JournalPrefix, u, v);
    }
  }

  /** The three kinds of key, and the users key, never collide, whatever the
      user ids: they already differ at their seventh character. */
  lemma KeyKindsNeverCollide(u: Option<string>, v: Option<string>)
    ensures ChallengeKey(u) != AffirmationKey(v)
    ensures ChallengeKey(u) != JournalKey(v)
    ensures AffirmationKey(u) != JournalKey(v)
    ensures UsersKey !in {ChallengeKey(u), AffirmationKey(u), JournalKey(u)}
  {
    assert ChallengeKey(u)[6] == 'c';
    assert AffirmationKey(v)[6] == 'a';
    assert JournalKey(v)[6] == 'j';
    assert AffirmationKey(u)[6] == 'a';
    assert JournalKey(u)[6] == 'j';
    assert UsersKey[6] == 'u';
  }

  /** The slot under `key` holds the kind of list its prefix names. */
  predicate SlotFits(key: string, slot: Slot) {
    match slot
    case ChallengeSlot(_) => ChallengePrefix <= key
    case AffirmationSlot(a) => AffirmationPrefix <= key && |a| <= AffirmationCap
    case JournalSlot(_) => JournalPrefix <= key
  }

  // ---------------------------------------------------------------------
  // List operations behind the service

  /** Some element carries the id. */
  predicate HasId(cs: seq<Challenge>, id: string) {
    exists j :: 0 <= j < |cs| && cs[j].id == id
  }

  /** `i` is the position of the first element with the id. */
  predicate FirstWithId(cs: seq<Challenge>, id: string, i: int) {
    0 <= i < |cs| && cs[i].id == id && forall j :: 0 <= j < i ==> cs[j].id != id
  }

  /** `Array.prototype.findIndex` on the id: the first match, or -1. */
  function FindIndex(cs: seq<Challenge>, id: string): (i: int)
    ensures -1 <= i < |cs|
    ensures i == -1 <==> !HasId(cs, id)
    ensures i != -1 ==> FirstWithId(cs, id, i)
  {
    if cs == [] then -1
    else if cs[0].id == id then 0
    else
      var k := FindIndex(cs[1..], id);
      assert forall j :: 1 <= j < |cs| ==> cs[j] == cs[1..][j - 1];
      if k == -1 then -1 else k + 1
  }

  /** The stored list after `updateChallenge`: the first element with the
      updated challenge's id is overwritten in place. */
  function ReplaceFirstById(cs: seq<Challenge>, c: Challenge): seq<Challenge> {
    var i := FindIndex(cs, c.id);
    if i == -1 then cs else cs[i := c]
  }

  /** Only the first element with the id changes, and it becomes `c`; the
      length and every other element, later duplicates included, stay. */
  lemma ReplaceFirstOnlyTouchesFirstMatch(cs: seq<Challenge>, c: Challenge, i: int)
    requires FirstWithId(cs, c.id, i)
    ensures |ReplaceFirstById(cs, c)| == |cs|
    ensures ReplaceFirstById(cs, c)[i] == c
    ensures forall j :: 0 <= j < |cs| && j != i ==> ReplaceFirstById(cs, c)[j] == cs[j]
  {
    assert HasId(cs, c.id);
    assert FindIndex(cs, c.id) == i;
  }

  /** Without a matching id the list is left as it is. */
  lemma ReplaceFirstWithoutMatch(cs: seq<Challenge>, c: Challenge)
    requires !HasId(cs, c.id)
    ensures ReplaceFirstById(cs, c) == cs
  {
    assert FindIndex(cs, c.id) == -1;
  }

  /** `cs.filter(c => c.id !== id)`. */
  function RemoveById(cs: seq<Challenge>, id: string): (r: seq<Challenge>)
    ensures |r| <= |cs|
    ensures forall x :: x in r <==> x in cs && x.id != id
    ensures HasId(cs, id) ==> |r| < |cs|
  {
    if cs == [] then []
    else
      var rest := RemoveById(cs[1..], id);
      assert forall j :: 1 <= j < |cs| ==> cs[j] == cs[1..][j - 1];
      assert forall x :: x in cs <==> x == cs[0] || x in cs[1..];
      (if cs[0].id == id then [] else [cs[0]]) + rest
  }

  /** Filtering distributes over concatenation: survivors keep their relative order. */
  lemma {:induction false} RemoveByIdConcat(a: seq<Challenge>, b: seq<Challenge>, id: string)
    ensures RemoveById(a + b, id) == RemoveById(a, id) + RemoveById(b, id)
  {
    if a == [] {
      assert a + b == b;
    } else {
      assert (a + b)[0] == a[0];
      assert (a + b)[1..] == a[1..] + b;
      RemoveByIdConcat(a[1..], b, id);
    }
  }

  /** A list without the id is returned whole. */
  lemma {:induction false} RemoveByIdWithoutMatch(cs: seq<Challenge>, id: string)
    requires !HasId(cs, id)
    ensures RemoveById(cs, id) == cs
  {
    if cs != [] {
      assert cs[0].id != id;
      forall j | 0 <= j < |cs| - 1
        ensures cs[1..][j].id != id
      {
        assert cs[1..][j] == cs[j + 1];
      }
      RemoveByIdWithoutMatch(cs[1..], id);
      assert cs == [cs[0]] + cs[1..];
    }
  }

  /** Deleting twice is deleting once. */
  lemma {:induction false} RemoveByIdIdempotent(cs: seq<Challenge>, id: string)
    ensures RemoveById(RemoveById(cs, id), id) == RemoveById(cs, id)
  {
    var r := RemoveById(cs, id);
    forall j | 0 <= j < |r|
      ensures r[j].id != id
    {
      assert r[j] in r;
    }
    RemoveByIdWithoutMatch(r, id);
  }

  /** `arr.slice(0, n)`: the first `n` elements, or all when there are fewer. */
  function Take<T>(s: seq<T>, n: nat): (r: seq<T>)
    ensures |r| <= n && |r| <= |s|
    ensures |s| <= n ==> r == s
    ensures n <= |s| ==> |r| == n
    ensures r == s[..|r|]
  {
    if |s| <= n then s else s[..n]
  }

  /** `[affirmation, ...current].slice(0, 10)`. */
  function PrependCapped(a: Affirmation, history: seq<Affirmation>): (r: seq<Affirmation>)
    ensures 1 <= |r| <= AffirmationCap && |r| <= |history| + 1
    ensures r[0] == a
    ensures r[1..] == history[..|r| - 1]
    ensures |history| < AffirmationCap ==> r == [a] + history
    ensures AffirmationCap <= |history| ==> |r| == AffirmationCap
  {
    Take([a] + history, AffirmationCap)
  }

  /** The affirmation list after saving each of `saved` in turn. */
  function SaveAll(history: seq<Affirmation>, saved: seq<Affirmation>): seq<Affirmation>
    decreases |saved|
  {
    if saved == [] then history
    else SaveAll(PrependCapped(saved[0], history), saved[1..])
  }

  /** After any non-empty sequence of saves at most ten affirmations are
      stored, and the last one saved is first. */
  lemma {:induction false} SaveAllCapped(history: seq<Affirmation>, saved: seq<Affirmation>)
    requires saved != []
    ensures 1 <= |SaveAll(history, saved)| <= AffirmationCap
    ensures SaveAll(history, saved)[0] == saved[|saved| - 1]
    decreases |saved|
  {
    if |saved| > 1 {
      SaveAllCapped(PrependCapped(saved[0], history), saved[1..]);
    }
  }

  // ---------------------------------------------------------------------
  // Lookups ("data ? JSON.parse(data) : []")

  function ChallengesAt(store: map<string, Slot>, key: string): seq<Challenge> {
    if key in store && store[key].ChallengeSlot? then store[key].challenges else []
  }

  function AffirmationsAt(store: map<string, Slot>, key: string): seq<Affirmation> {
    if key in store && store[key].AffirmationSlot? then store[key].affirmations else []
  }

  function JournalAt(store: map<string, Slot>, key: string): seq<JournalEntry> {
    if key in store && store[key].JournalSlot? then store[key].entries else []
  }

  // ---------------------------------------------------------------------
  // The service

  /** The module-level `currentUserId` together with the browser store. */
  class StorageService {
    var currentUserId: Option<string>
    var store: map<string, Slot>

    /** Every slot sits under a key of its own kind, and no affirmation list
        is longer than the cap. */
    ghost predicate Valid()
      reads this
    {
      forall k :: k in store ==> SlotFits(k, store[k])
    }

    predicate SignedIn()
      reads this
    {
      HasUser(currentUserId)
    }

    /** What `getChallenges` returns in the current state. */
    function Challenges(): seq<Challenge>
      reads this
    {
      if SignedIn() then ChallengesAt(store, ChallengeKey(currentUserId)) else []
    }

    /** What `getAffirmations` returns in the current state. */
    function Affirmations(): seq<Affirmation>
      reads this
    {
      if SignedIn() then AffirmationsAt(store, AffirmationKey(currentUserId)) else []
    }

    /** What `getJournalEntries` returns in the current state. */
    function JournalEntries(): seq<JournalEntry>
      reads this
    {
      if SignedIn() then JournalAt(store, JournalKey(currentUserId)) else []
    }

    /** A fresh page: no user, and a store the application has not written yet. */
    constructor ()
      ensures Valid()
      ensures currentUserId == None && store == map[]
    {
      currentUserId := None;
      store := map[];
    }

    method SetContext(userId: string)
      modifies this
      ensures currentUserId == Some(userId) && store == old(store)
    {
      currentUserId := Some(userId);
    }

    method GetChallenges() returns (cs: seq<Challenge>)
      requires Valid()
      ensures !SignedIn() ==> cs == []
      ensures SignedIn() ==> cs == ChallengesAt(store, ChallengeKey(currentUserId))
    {
      if !SignedIn() {
        return [];
      }
      cs := ChallengesAt(store, ChallengeKey(currentUserId));
    }

    method SaveChallenge(c: Challenge)
      requires Valid()
      modifies this
      ensures Valid() && currentUserId == old(currentUserId)
      ensures !SignedIn() ==> store == old(store)
      ensures SignedIn() ==>
        store == old(store)[ChallengeKey(currentUserId) := ChallengeSlot(old(Challenges()) + [c])]
      ensures SignedIn() ==>
        && Challenges() == old(Challenges()) + [c]
        && Affirmations() == old(Affirmations())
        && JournalEntries() == old(JournalEntries())
    {
      if !SignedIn() {
        return;
      }
      var current := GetChallenges();
      var updated := current + [c];
      SavedChallengeReadsBack(store, currentUserId.value, c);
      store := store[ChallengeKey(currentUserId) := ChallengeSlot(updated)];
    }

    method UpdateChallenge(c: Challenge)
      requires Valid()
      modifies this
      ensures Valid() && currentUserId == old(currentUserId)
      ensures !SignedIn() || !HasId(old(Challenges()), c.id) ==> store == old(store)
      ensures SignedIn() && HasId(old(Challenges()), c.id) ==>
        store == old(store)[ChallengeKey(currentUserId) := ChallengeSlot(ReplaceFirstById(old(Challenges()), c))]
    {
      if !SignedIn() {
        return;
      }
      var current := GetChallenges();
      var index := FindIndex(current, c.id);
      if index != -1 {
        current := current[index := c];
        store := store[ChallengeKey(currentUserId) := ChallengeSlot(current)];
      }
    }

    method DeleteChallenge(id: string)
      requires Valid()
      modifies this
      ensures Valid() && currentUserId == old(currentUserId)
      ensures !SignedIn() ==> store == old(store)
      ensures SignedIn() ==>
        store == old(store)[ChallengeKey(currentUserId) := ChallengeSlot(RemoveById(old(Challenges()), id))]
    {
      if !SignedIn() {
        return;
      }
      var current := GetChallenges();
      var filtered := RemoveById(current, id);
      store := store[ChallengeKey(currentUserId) := ChallengeSlot(filtered)];
    }

    method GetAffirmations() returns (affs: seq<Affirmation>)
      requires Valid()
      ensures !SignedIn() ==> affs == []
      ensures SignedIn() ==> affs == AffirmationsAt(store, AffirmationKey(currentUserId))
      ensures |affs| <= AffirmationCap
    {
      if !SignedIn() {
        return [];
      }
      var key := AffirmationKey(currentUserId);
      if key in store {
        assert SlotFits(key, store[key]);
      }
      affs := AffirmationsAt(store, key);
    }

    method SaveAffirmation(a: Affirmation)
      requires Valid()
      modifies this
      ensures Valid() && currentUserId == old(currentUserId)
      ensures !SignedIn() ==> store == old(store)
      ensures SignedIn() ==>
        store == old(store)[AffirmationKey(currentUserId) := AffirmationSlot(PrependCapped(a, old(Affirmations())))]
    {
      if !SignedIn() {
        return;
      }
      var current := GetAffirmations();
      var updated := Take([a] + current, AffirmationCap);
      store := store[AffirmationKey(currentUserId) := AffirmationSlot(updated)];
    }

    method GetJournalEntries() returns (es: seq<JournalEntry>)
      requires Valid()
      ensures !SignedIn() ==> es == []
      ensures SignedIn() ==> es == JournalAt(store, JournalKey(currentUserId))
    {
      if !SignedIn() {
        return [];
      }
      es := JournalAt(store, JournalKey(currentUserId));
    }

    method SaveJournalEntry(e: JournalEntry)
      requires Valid()
      modifies this
      ensures Valid() && currentUserId == old(currentUserId)
      ensures !SignedIn() ==> store == old(store)
      ensures SignedIn() ==>
        store == old(store)[JournalKey(currentUserId) := JournalSlot([e] + old(JournalEntries()))]
    {
      if !SignedIn() {
        return;
      }
      var current := GetJournalEntries();
      var updated := [e] + current;
      store := store[JournalKey(currentUserId) := JournalSlot(updated)];
    }
  }

  /** Reading back what a challenge save wrote: the challenge list has grown
      by exactly the saved challenge at its end, and the same user's
      affirmations and journal read back as before. */
  lemma SavedChallengeReadsBack(store: map<string, Slot>, u: string, c: Challenge)
    requires u != ""
    ensures var key := ChallengeKey(Some(u));
      var after := store[key := ChallengeSlot(ChallengesAt(store, key) + [c])];
      && ChallengesAt(after, key) == ChallengesAt(store, key) + [c]
      && AffirmationsAt(after, AffirmationKey(Some(u))) == AffirmationsAt(store, AffirmationKey(Some(u)))
      && JournalAt(after, JournalKey(Some(u))) == JournalAt(store, JournalKey(Some(u)))
  {
    KeyKindsNeverCollide(Some(u), Some(u));
  }
}
