/** The member directory panel: the list of profile records fetched from the
    `users` collection, its pagination, and single and bulk deletion. */
module Members {
  import opened Outcomes

  /** A document of the `users` collection: its key and its stored fields
      (field values are modelled as strings). */
  datatype Doc = Doc(id: string, data: map<string, string>)

  /** One entry of the panel's list: a plain object of named fields. */
  type Member = map<string, string>

  /** Entries shown per page. */
  const ItemsPerPage: nat := 20

  /** `{ id: doc.id, ...doc.data() }`: the key first, then the stored fields,
      so a stored field named `id` overrides the document key. */
  function FromDoc(d: Doc): (m: Member)
    ensures m.Keys == d.data.Keys + {"id"}
    ensures forall k :: k in d.data ==> m[k] == d.data[k]
    ensures "id" !in d.data ==> m["id"] == d.id
  {
    map["id" := d.id] + d.data
  }

  /** The fetched snapshot mapped entry by entry, in snapshot order. */
  function FromDocs(docs: seq<Doc>): (r: seq<Member>)
    ensures |r| == |docs|
    ensures forall i :: 0 <= i < |docs| ==> r[i] == FromDoc(docs[i])
    decreases |docs|
  {
    if docs == [] then [] else [FromDoc(docs[0])] + FromDocs(docs[1..])
  }

  /** Every entry built by a fetch has an `id` field. */
  predicate AllHaveIds(users: seq<Member>)
  {
    forall u :: u in users ==> "id" in u
  }

  /** `user.id === userId`; an entry without an `id` field never matches. */
  predicate HasId(u: Member, userId: string)
  {
    "id" in u && u["id"] == userId
  }

  /** `users.filter(user => user.id !== userId)`. */
  function RemoveById(users: seq<Member>, userId: string): (r: seq<Member>)
    ensures forall u :: u in r <==> u in users && !HasId(u, userId)
    ensures |r| <= |users|
    decreases |users|
  {
    if users == [] then []
    else if HasId(users[0], userId) then RemoveById(users[1..], userId)
    else [users[0]] + RemoveById(users[1..], userId)
  }

  /** Filtering distributes over concatenation, so the kept entries stay in
      their original order. */
  lemma {:induction false} RemoveByIdConcat(a: seq<Member>, b: seq<Member>, userId: string)
    ensures RemoveById(a + b, userId) == RemoveById(a, userId) + RemoveById(b, userId)
    decreases |a|
  {
    if a == [] {
      assert a + b == b;
    } else {
      assert (a + b)[0] == a[0];
      assert (a + b)[1..] == a[1..] + b;
      RemoveByIdConcat(a[1..], b, userId);
    }
  }

  /** Deleting the same id twice removes nothing more. */
  lemma {:induction false} RemoveByIdIdempotent(users: seq<Member>, userId: string)
    ensures RemoveById(RemoveById(users, userId), userId) == RemoveById(users, userId)
    decreases |users|
  {
    if users != [] {
      RemoveByIdIdempotent(users[1..], userId);
      if !HasId(users[0], userId) {
        var rest := RemoveById(users[1..], userId);
        assert ([users[0]] + rest)[0] == users[0];
        assert ([users[0]] + rest)[1..] == rest;
      }
    }
  }

  /** When no entry carries `userId`, the filter returns the list unchanged. */
  lemma {:induction false} RemoveByIdAbsent(users: seq<Member>, userId: string)
    requires forall u :: u in users ==> !HasId(u, userId)
    ensures RemoveById(users, userId) == users
    decreases |users|
  {
    if users != [] {
      RemoveByIdAbsent(users[1..], userId);
      assert [users[0]] + users[1..] == users;
    }
  }

  /** `Array.prototype.slice`'s reading of an index against a length: a
      negative index counts from the end, and the result is clamped to
      `[0, len]`. */
  function SliceIndex(i: int, len: nat): (r: nat)
    ensures r <= len
  {
    if i < 0 then (if len + i < 0 then 0 else len + i)
    else if i > len then len
    else i
  }

  /** `s.slice(start, end)`. */
  function Slice<T>(s: seq<T>, start: int, end: int): (r: seq<T>)
    ensures 0 <= start <= end ==>
      r == s[(if start < |s| then start else |s|)..(if end < |s| then end else |s|)]
  {
    var from := SliceIndex(start, |s|);
    var to := SliceIndex(end, |s|);
    if from < to then s[from..to] else []
  }

  /** `indexOfFirstItem` and `indexOfLastItem` for a page number. */
  function FirstIndex(page: int): int
  {
    page * ItemsPerPage - ItemsPerPage
  }

  function LastIndex(page: int): int
  {
    page * ItemsPerPage
  }

  /** `currentUsers`: the entries shown on page `page`. */
  function PageOf(users: seq<Member>, page: int): seq<Member>
  {
    Slice(users, FirstIndex(page), LastIndex(page))
  }

  /** `Math.ceil(users.length / itemsPerPage)`. */
  function TotalPages(n: nat): (r: nat)
    ensures r * ItemsPerPage >= n
    ensures n > 0 ==> (r - 1) * ItemsPerPage < n
    ensures n == 0 ==> r == 0
  {
    (n + ItemsPerPage - 1) / ItemsPerPage
  }

  function Min(a: int, b: int): int
  {
    if a < b then a else b
  }

  /** Page `page` (counted from 1) is the window `[(page-1)*20, page*20)` of
      the list, cut at its end: empty once the window starts past the end,
      and never more than 20 entries. `FirstIndex(page)` is `(page-1)*20`
      and `LastIndex(page)` is `page*20`. */
  lemma PageWindow(users: seq<Member>, page: int)
    requires page >= 1
    ensures FirstIndex(page) >= |users| ==> PageOf(users, page) == []
    ensures FirstIndex(page) < |users| ==>
      PageOf(users, page) == users[FirstIndex(page)..Min(LastIndex(page), |users|)]
    ensures |PageOf(users, page)| <= ItemsPerPage
  {
  }

  /** A page past `totalPages` shows nothing. */
  lemma PageBeyondLastIsEmpty(users: seq<Member>, page: int)
    requires page > TotalPages(|users|)
    ensures PageOf(users, page) == []
  {
    PageWindow(users, page);
  }

  /** Every page from 1 to `totalPages` shows at least one entry. */
  lemma PagesUpToTotalAreNonEmpty(users: seq<Member>, page: int)
    requires 1 <= page <= TotalPages(|users|)
    ensures PageOf(users, page) != []
  {
    PageWindow(users, page);
  }

  /** Pages `1..k` shown one after another. */
  function Pages(users: seq<Member>, k: nat): seq<Member>
  {
    if k == 0 then [] else Pages(users, k - 1) + PageOf(users, k)
  }

  /** Pages `1..k` together are the first `k*20` entries of the list. */
  lemma {:induction false} PagesArePrefix(users: seq<Member>, k: nat)
    ensures Pages(users, k) == users[..Min(k * ItemsPerPage, |users|)]
  {
    if k > 0 {
      PagesArePrefix(users, k - 1);
      PageWindow(users, k);
      var lo := Min((k - 1) * ItemsPerPage, |users|);
      var hi := Min(k * ItemsPerPage, |users|);
      assert users[..lo] + users[lo..hi] == users[..hi];
    }
  }

  /** The page buttons `1..totalPages` together show every entry, in order,
      exactly once. */
  lemma PagesCoverList(users: seq<Member>)
    ensures Pages(users, TotalPages(|users|)) == users
  {
    PagesArePrefix(users, TotalPages(|users|));
  }

  /** `Promise.all` over the per-entry deletions resolves only if each one
      does. */
  predicate AllResolved(results: seq<Outcome<()>>)
  {
    forall i :: 0 <= i < |results| ==> results[i].Ok?
  }

  /** The panel component's state hooks. */
  class MembersPanel {
    var users: seq<Member>
    var loading: bool
    var currentPage: int
    var showDeleteConfirm: bool
    var userToDelete: Option<Member>
    var showDeleteAllConfirm: bool

    /** Every listed entry has an id, the page number is a button's, and the
        single-delete dialog is open exactly when an entry is selected for it. */
    ghost predicate Valid()
      reads this
    {
      AllHaveIds(users)
      && currentPage >= 1
      && (showDeleteConfirm <==> userToDelete.Some?)
      && (userToDelete.Some? ==> "id" in userToDelete.value)
    }

    /** The entries rendered for the current page. */
    function CurrentUsers(): (r: seq<Member>)
      reads this
      requires Valid()
      ensures |r| <= ItemsPerPage
      ensures forall u :: u in r ==> u in users
    {
      PageWindow(users, currentPage);
      PageOf(users, currentPage)
    }

    constructor ()
      ensures Valid()
      ensures users == [] && loading && currentPage == 1
      ensures !showDeleteConfirm && userToDelete == None && !showDeleteAllConfirm
    {
      users := [];
      loading := true;
      currentPage := 1;
      showDeleteConfirm := false;
      userToDelete := None;
      showDeleteAllConfirm := false;
    }

    /** `fetchUsers`: on success the snapshot replaces the list; loading ends
        whether or not the read succeeded. */
    method FetchUsers(snapshot: Outcome<seq<Doc>>)
      requires Valid()
      modifies this
      ensures Valid()
      ensures users == if snapshot.Ok? then FromDocs(snapshot.value) else old(users)
      ensures !loading
      ensures currentPage == old(currentPage) && showDeleteConfirm == old(showDeleteConfirm)
      ensures userToDelete == old(userToDelete) && showDeleteAllConfirm == old(showDeleteAllConfirm)
    {
      if snapshot.Ok? {
        users := FromDocs(snapshot.value);
      }
      loading := false;
    }

    /** A page button: `setCurrentPage(i + 1)` for `i` below `totalPages`. */
    method SelectPage(i: nat)
      requires Valid()
      requires i < TotalPages(|users|)
      modifies this
      ensures Valid()
      ensures currentPage == i + 1 && CurrentUsers() != []
      ensures users == old(users) && loading == old(loading) && showDeleteConfirm == old(showDeleteConfirm)
      ensures userToDelete == old(userToDelete) && showDeleteAllConfirm == old(showDeleteAllConfirm)
    {
      currentPage := i + 1;
      PagesUpToTotalAreNonEmpty(users, currentPage);
    }

    /** The trash button of the `k`-th shown entry opens the single-delete
        dialog for it. */
    method AskDelete(k: nat)
      requires Valid()
      requires k < |CurrentUsers()|
      modifies this
      ensures Valid()
      ensures userToDelete == Some(old(CurrentUsers())[k]) && showDeleteConfirm
      ensures users == old(users) && loading == old(loading) && currentPage == old(currentPage)
      ensures showDeleteAllConfirm == old(showDeleteAllConfirm)
    {
      var shown := CurrentUsers();
      userToDelete := Some(shown[k]);
      showDeleteConfirm := true;
    }

    /** The single-delete dialog's Cancel button. */
    method CancelDelete()
      requires Valid()
      modifies this
      ensures Valid()
      ensures !showDeleteConfirm && userToDelete == None
      ensures users == old(users) && loading == old(loading) && currentPage == old(currentPage)
      ensures showDeleteAllConfirm == old(showDeleteAllConfirm)
    {
      showDeleteConfirm := false;
      userToDelete := None;
    }

    /** `handleDeleteUser(userId)`; `remote` is the outcome of deleting the
        document. On success the matching entries leave the list and the
        dialog closes; on failure nothing changes. */
    method DeleteUser(userId: string, remote: Outcome<()>)
      requires Valid()
      modifies this
      ensures Valid()
      ensures remote.Ok? ==>
        users == RemoveById(old(users), userId) && !showDeleteConfirm && userToDelete == None
      ensures remote.Fail? ==>
        users == old(users) && showDeleteConfirm == old(showDeleteConfirm) && userToDelete == old(userToDelete)
      ensures loading == old(loading) && currentPage == old(currentPage)
      ensures showDeleteAllConfirm == old(showDeleteAllConfirm)
    {
      if remote.Ok? {
        users := RemoveById(users, userId);
        showDeleteConfirm := false;
        userToDelete := None;
      }
    }

    /** The single-delete dialog's Delete button: deletes the selected entry. */
    method ConfirmDelete(remote: Outcome<()>)
      requires Valid()
      requires showDeleteConfirm
      modifies this
      ensures Valid()
      ensures remote.Ok? ==>
        users == RemoveById(old(users), old(userToDelete).value["id"]) && !showDeleteConfirm && userToDelete == None
      ensures remote.Fail? ==>
        users == old(users) && showDeleteConfirm && userToDelete == old(userToDelete)
      ensures loading == old(loading) && currentPage == old(currentPage)
      ensures showDeleteAllConfirm == old(showDeleteAllConfirm)
    {
      DeleteUser(userToDelete.value["id"], remote);
    }

    /** The Delete All button opens its confirmation dialog. */
    method AskDeleteAll()
      requires Valid()
      modifies this
      ensures Valid()
      ensures showDeleteAllConfirm
      ensures users == old(users) && loading == old(loading) && currentPage == old(currentPage)
      ensures showDeleteConfirm == old(showDeleteConfirm) && userToDelete == old(userToDelete)
    {
      showDeleteAllConfirm := true;
    }

    /** The delete-all dialog's Cancel button. */
    method CancelDeleteAll()
      requires Valid()
      modifies this
      ensures Valid()
      ensures !showDeleteAllConfirm
      ensures users == old(users) && loading == old(loading) && currentPage == old(currentPage)
      ensures showDeleteConfirm == old(showDeleteConfirm) && userToDelete == old(userToDelete)
    {
      showDeleteAllConfirm := false;
    }

    /** `handleDeleteAll`; `results[i]` is the outcome of deleting the
        document of `users[i]`. The list is cleared and the dialog closed only
        if every deletion resolved; otherwise nothing changes. */
    method DeleteAll(results: seq<Outcome<()>>)
      requires Valid()
      requires |results| == |users|
      modifies this
      ensures Valid()
      ensures AllResolved(results) ==> users == [] && !showDeleteAllConfirm
      ensures !AllResolved(results) ==> users == old(users) && showDeleteAllConfirm == old(showDeleteAllConfirm)
      ensures loading == old(loading) && currentPage == old(currentPage)
      ensures showDeleteConfirm == old(showDeleteConfirm) && userToDelete == old(userToDelete)
    {
      if AllResolved(results) {
        users := [];
        showDeleteAllConfirm := false;
      }
    }
  }
}
