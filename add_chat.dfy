/**
 * The new-chat picker: the users the current user has no chat with yet,
 * narrowed by a name search.
 */
module AddChat {
  import opened Wrappers
  import opened Firestore
  import opened Seqs
  import opened Text
  import opened Records

  /** `participants.filter { $0 != currentUserID }` */
  function OthersOf(participants: seq<string>, me: string): seq<string> {
    Filter(participants, p => p != me)
  }

  /**
   * The ids `fetchExistingChats` collects: for each chat document in order,
   * its participants other than the current user, duplicates included; a
   * document without a string-list `participants` contributes nothing.
   */
  function ExcludedIds(docs: seq<Document>, me: string): seq<string> {
    if docs == [] then []
    else
      var init := ExcludedIds(docs[..|docs| - 1], me);
      match GetStringList(docs[|docs| - 1].data, "participants")
      case None => init
      case Some(participants) => init + OthersOf(participants, me)
  }

  /** The participants list a chat document offers, if it has one. */
  function ListedParticipants(d: Document): seq<string> {
    GetStringList(d.data, "participants").GetOr([])
  }

  /** An id is excluded iff it is not the current user and some chat document lists it. */
  lemma {:induction false} ExcludedIdsMembership(docs: seq<Document>, me: string, id: string)
    ensures id in ExcludedIds(docs, me) <==>
      id != me && exists i :: 0 <= i < |docs| && id in ListedParticipants(docs[i])
  {
    if docs != [] {
      var init := docs[..|docs| - 1];
      var last := docs[|docs| - 1];
      ExcludedIdsMembership(init, me, id);
      FilterMembership(ListedParticipants(last), p => p != me, id);
      if id != me && exists i :: 0 <= i < |docs| && id in ListedParticipants(docs[i]) {
        var i :| 0 <= i < |docs| && id in ListedParticipants(docs[i]);
        if i < |docs| - 1 {
          assert docs[i] == init[i];
        }
      }
    }
  }

  /** The loop of `fetchExistingChats`, appending each chat's other participants. */
  method ExistingChatUserIds(docs: seq<Document>, me: string) returns (ids: seq<string>)
    ensures ids == ExcludedIds(docs, me)
  {
    ids := [];
    for i := 0 to |docs|
      invariant ids == ExcludedIds(docs[..i], me)
    {
      assert docs[..i + 1][..i] == docs[..i];
      var participants := GetStringList(docs[i].data, "participants");
      if participants.Some? {
        ids := ids + OthersOf(participants.value, me);
      }
    }
    assert docs[..|docs|] == docs;
  }

  /** The user built by `fetchAllUsers` from one document; it never fails. */
  function UserOf(d: Document): User {
    User(d.id, StringOr(d.data, "name", "No Name"), StringOr(d.data, "email", "No Email"),
         StringOr(d.data, "description", "No Description"), GetString(d.data, "profileImageUrl"))
  }

  /** A document missing every field still gives a user, with the three placeholder texts and no picture. */
  lemma MissingFieldsDefault(id: string)
    ensures UserOf(Document(id, map[])) == User(id, "No Name", "No Email", "No Description", None)
  {
  }

  /** The users of a snapshot, one per document and in order. */
  function UsersOf(docs: seq<Document>): (users: seq<User>)
    ensures |users| == |docs|
    ensures forall i :: 0 <= i < |docs| ==> users[i] == UserOf(docs[i])
  {
    seq(|docs|, i requires 0 <= i < |docs| => UserOf(docs[i]))
  }

  /** The users offered: neither already chatted with nor the current user. */
  function Selectable(users: seq<User>, excluded: seq<string>, me: string): seq<User> {
    Filter(users, (u: User) => u.id !in excluded && u.id != me)
  }

  /** `excUsers` is the order-preserving sublist of users whose id is neither excluded nor the current user. */
  lemma SelectableSpec(users: seq<User>, excluded: seq<string>, me: string)
    ensures IsSubsequence(Selectable(users, excluded, me), users)
    ensures forall u :: u in Selectable(users, excluded, me) <==> u in users && u.id !in excluded && u.id != me
  {
    var p := (u: User) => u.id !in excluded && u.id != me;
    FilterIsSubsequence(users, p);
    forall u ensures u in Selectable(users, excluded, me) <==> u in users && p(u) {
      FilterMembership(users, p, u);
    }
  }

  /** `searchBar(_:textDidChange:)` over `excUsers`. */
  function SearchUsers(excUsers: seq<User>, query: string): seq<User> {
    if query == "" then excUsers else Filter(excUsers, (u: User) => MatchesIgnoringCase(u.name, query))
  }

  /**
   * The empty query restores `excUsers` exactly (the screen checks for it
   * before filtering); any other query gives the order-preserving sublist
   * whose lowercased name contains the lowercased query.
   */
  lemma SearchUsersSpec(excUsers: seq<User>, query: string)
    ensures query == "" ==> SearchUsers(excUsers, query) == excUsers
    ensures IsSubsequence(SearchUsers(excUsers, query), excUsers)
    ensures forall u :: u in SearchUsers(excUsers, query) <==>
      u in excUsers && (query == "" || MatchesIgnoringCase(u.name, query))
  {
    if query == "" {
      var all := (u: User) => true;
      FilterAll(excUsers, all);
      FilterIsSubsequence(excUsers, all);
    } else {
      var p := (u: User) => MatchesIgnoringCase(u.name, query);
      FilterIsSubsequence(excUsers, p);
      forall u ensures u in Filter(excUsers, p) <==> u in excUsers && p(u) {
        FilterMembership(excUsers, p, u);
      }
    }
  }

  class AddChatScreen {
    var currentUserID: Option<string>
    var excUsers: seq<User>
    var filteredUsers: seq<User>

    constructor (currentUserID: Option<string>)
      ensures this.currentUserID == currentUserID && excUsers == [] && filteredUsers == []
    {
      this.currentUserID := currentUserID;
      excUsers, filteredUsers := [], [];
    }

    /**
     * `fetchAllUsers(excluding:)` once its query returns: an error or a
     * missing snapshot leaves both lists; otherwise both become the
     * selectable users.
     */
    method FetchAllUsers(excluded: seq<string>, failed: bool, snapshot: Option<seq<Document>>)
      modifies this`excUsers, this`filteredUsers
      ensures currentUserID.None? || failed || snapshot.None? ==>
        excUsers == old(excUsers) && filteredUsers == old(filteredUsers)
      ensures currentUserID.Some? && !failed && snapshot.Some? ==>
        && excUsers == Selectable(UsersOf(snapshot.value), excluded, currentUserID.value)
        && filteredUsers == excUsers
    {
      if currentUserID.None? || failed || snapshot.None? {
        return;
      }
      var allUsers := UsersOf(snapshot.value);
      excUsers := Selectable(allUsers, excluded, currentUserID.value);
      filteredUsers := excUsers;
    }

    /**
     * `fetchExistingChats` followed by the user fetch it triggers. A failed
     * chat query ends the chain; a missing chat snapshot excludes nobody.
     */
    method FetchExistingChats(chatsFailed: bool, chatSnapshot: Option<seq<Document>>,
                              usersFailed: bool, userSnapshot: Option<seq<Document>>)
      modifies this`excUsers, this`filteredUsers
      ensures currentUserID.None? || chatsFailed || usersFailed || userSnapshot.None? ==>
        excUsers == old(excUsers) && filteredUsers == old(filteredUsers)
      ensures currentUserID.Some? && !chatsFailed && !usersFailed && userSnapshot.Some? ==>
        && excUsers == Selectable(UsersOf(userSnapshot.value), ExcludedIds(chatSnapshot.GetOr([]), currentUserID.value),
                                  currentUserID.value)
        && filteredUsers == excUsers
    {
      if currentUserID.None? || chatsFailed {
        return;
      }
      var existingChatUserIDs := ExistingChatUserIds(chatSnapshot.GetOr([]), currentUserID.value);
      FetchAllUsers(existingChatUserIDs, usersFailed, userSnapshot);
    }

    method SearchTextDidChange(query: string)
      modifies this`filteredUsers
      ensures filteredUsers == SearchUsers(excUsers, query)
    {
      if query == "" {
        filteredUsers := excUsers;
      } else {
        filteredUsers := Filter(excUsers, (u: User) => MatchesIgnoringCase(u.name, query));
      }
    }
  }
}
