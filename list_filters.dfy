/**
 * The searchable lists of the app: stored files, subjects and topics. Each
 * keeps its full list and the list shown, which a search query narrows to
 * the items whose title contains the query, ignoring case. Also the MIME
 * lookup used to open a stored file, and the status and progress-dot rules
 * of a topic row.
 */
module ListFilters {
  import opened Wrappers
  import opened Text
  import Challenges

  /** The title of an item matches the query: present and containing it, ignoring case. */
  predicate TitleMatches(title: Option<string>, query: string)
  {
    title.Some? && Contains(ToLower(title.value), ToLower(query))
  }

  /**
   * What a search shows: everything for a null or empty query, otherwise
   * the items whose title matches, in their order.
   */
  function Filtered<T>(all: seq<T>, titleOf: T -> Option<string>, query: Option<string>): (r: seq<T>)
    ensures |r| <= |all|
    ensures query.None? || query.value == "" ==> r == all
    decreases |all|
  {
    if query.None? || query.value == "" then all
    else if |all| == 0 then []
    else
      var last := all[|all| - 1];
      Filtered(all[..|all| - 1], titleOf, query) + (if TitleMatches(titleOf(last), query.value) then [last] else [])
  }

  /** An item is shown exactly when it is in the full list and matches. */
  lemma {:induction false} FilteredMembers<T>(all: seq<T>, titleOf: T -> Option<string>, query: string, x: T)
    requires query != ""
    ensures x in Filtered(all, titleOf, Some(query)) <==> x in all && TitleMatches(titleOf(x), query)
    decreases |all|
  {
    if |all| > 0 {
      var init := all[..|all| - 1];
      FilteredMembers(init, titleOf, query, x);
      assert all == init + [all[|all| - 1]];
    }
  }

  /** The search loop: clear the shown list, then add each matching item of the full list. */
  method FilterItems<T>(all: seq<T>, titleOf: T -> Option<string>, query: Option<string>) returns (shown: seq<T>)
    ensures shown == Filtered(all, titleOf, query)
  {
    shown := [];
    if query.None? || query.value == "" {
      shown := shown + all;
      return;
    }
    var lowerQuery := ToLower(query.value);
    var i := 0;
    while i < |all|
      invariant 0 <= i <= |all|
      invariant shown == Filtered(all[..i], titleOf, query)
    {
      assert all[..i + 1][..i] == all[..i];
      var title := titleOf(all[i]);
      if title.Some? && Contains(ToLower(title.value), lowerQuery) {
        shown := shown + [all[i]];
      }
      i := i + 1;
    }
    assert all[..i] == all;
  }

  /** List.indexOf: the first position of x, or -1. */
  function IndexOfItem<T(==)>(s: seq<T>, x: T): (r: int)
    ensures -1 <= r < |s|
    ensures r >= 0 ==> s[r] == x && forall j :: 0 <= j < r ==> s[j] != x
    ensures r == -1 <==> x !in s
    decreases |s|
  {
    if |s| == 0 then -1
    else if s[0] == x then 0
    else
      var rest := IndexOfItem(s[1..], x);
      if rest == -1 then -1 else rest + 1
  }

  // ---------------------------------------------------------------- stored files

  /** A stored file: its title and its file name (either may be null). */
  datatype StorageListItem = StorageListItem(title: Option<string>, fileName: Option<string>)

  function StorageTitle(item: StorageListItem): Option<string> { item.title }

  /** String.lastIndexOf(c): the last position of c, or -1. */
  function LastIndexOfChar(s: string, c: char): (r: int)
    ensures -1 <= r < |s|
    ensures r >= 0 ==> s[r] == c && forall j :: r < j < |s| ==> s[j] != c
    ensures r == -1 ==> forall j :: 0 <= j < |s| ==> s[j] != c
    decreases |s|
  {
    if |s| == 0 then -1
    else if s[|s| - 1] == c then |s| - 1
    else LastIndexOfChar(s[..|s| - 1], c)
  }

  /** The last occurrence of c is at d when c occurs at d and nowhere after it. */
  lemma {:induction false} LastIndexOfCharAt(s: string, c: char, d: int)
    requires 0 <= d < |s| && s[d] == c
    requires forall j :: d < j < |s| ==> s[j] != c
    ensures LastIndexOfChar(s, c) == d
  {
  }

  /**
   * The extension getMimeType looks up: the lower-cased text after the last
   * dot, when that dot is neither the first nor the last character;
   * otherwise "".
   */
  function Extension(fileName: string): (r: string)
    ensures r != "" ==> exists d :: 0 < d < |fileName| - 1 && fileName[d] == '.' && r == ToLower(fileName[d + 1..])
    ensures r != "" ==> forall k :: 0 <= k < |r| ==> r[k] != '.'
    ensures r != "" <==> exists d :: 0 < d < |fileName| - 1 && fileName[d] == '.' && forall j :: d < j < |fileName| ==> fileName[j] != '.'
  {
    var dot := LastIndexOfChar(fileName, '.');
    if 0 < dot < |fileName| - 1 then
      var ext := ToLower(fileName[dot + 1..]);
      assert forall k :: 0 <= k < |ext| ==> ext[k] == LowerChar(fileName[dot + 1 + k]);
      ext
    else ""
  }

  /** The MIME type StorageListManager opens a file with; null and unknown extensions give any type. */
  function StorageMimeType(fileName: Option<string>): (r: string)
    ensures fileName.None? ==> r == "*/*"
  {
    if fileName.None? then "*/*"
    else match Extension(fileName.value)
      case "pdf" => "application/pdf"
      case "doc" => "application/msword"
      case "docx" => "application/vnd.openxmlformats-officedocument.wordprocessingml.document"
      case "xls" => "application/vnd.ms-excel"
      case "xlsx" => "application/vnd.openxmlformats-officedocument.spreadsheetml.sheet"
      case "ppt" => "application/vnd.ms-powerpoint"
      case "pptx" => "application/vnd.openxmlformats-officedocument.presentationml.presentation"
      case "txt" => "text/plain"
      case "jpg" => "image/jpeg"
      case "jpeg" => "image/jpeg"
      case "png" => "image/png"
      case "gif" => "image/gif"
      case "mp4" => "video/mp4"
      case "mp3" => "audio/mpeg"
      case "zip" => "application/zip"
      case _ => "*/*"
  }

  /** The extension is found case-insensitively after the last dot: "Report.PDF" is a PDF. */
  lemma UpperCaseExtension()
    ensures StorageMimeType(Some("Report.PDF")) == "application/pdf"
  {
    LastIndexOfCharAt("Report.PDF", '.', 6);
    assert ToLower("PDF") == "pdf";
  }

  /** A leading dot does not start an extension: ".pdf" opens as any type. */
  lemma HiddenFileName()
    ensures StorageMimeType(Some(".pdf")) == "*/*"
  {
    LastIndexOfCharAt(".pdf", '.', 0);
  }

  /**
   * StorageListManager. `allItems` is the subject's storage list itself,
   * which StorageActivity keeps a reference to and changes behind the
   * manager's back (ItemAdded, ItemRemoved); the shown list follows only
   * on filter, resetFilter or notifyItemsChanged.
   */
  class StorageListManager {
    var allItems: seq<StorageListItem>
    var filteredItems: seq<StorageListItem>

    constructor (items: seq<StorageListItem>)
      ensures allItems == items && filteredItems == items
    {
      allItems := items;
      filteredItems := items;
    }

    method Filter(query: Option<string>)
      modifies this
      ensures allItems == old(allItems)
      ensures filteredItems == Filtered(allItems, StorageTitle, query)
    {
      filteredItems := FilterItems(allItems, StorageTitle, query);
    }

    method ResetFilter()
      modifies this
      ensures allItems == old(allItems) && filteredItems == allItems
    {
      filteredItems := allItems;
    }

    /** notifyItemsChanged: the shown list is brought back in line with the shared list as it now stands. */
    method NotifyItemsChanged()
      modifies this
      ensures allItems == old(allItems) && filteredItems == allItems
    {
      filteredItems := allItems;
    }

    /** The activity's subject.addStorageItem on the shared list: appended there, not yet shown. */
    method ItemAdded(item: StorageListItem)
      modifies this
      ensures allItems == old(allItems) + [item] && filteredItems == old(filteredItems)
    {
      allItems := allItems + [item];
    }

    /** The activity's storageList.remove(position) on the shared list; the shown list keeps the item until the next sync. */
    method ItemRemoved(position: int)
      requires 0 <= position < |allItems|
      modifies this
      ensures allItems == old(allItems[..position]) + old(allItems[position + 1..]) && filteredItems == old(filteredItems)
    {
      allItems := allItems[..position] + allItems[position + 1..];
    }

    /** The long-click position reported for the shown item at `position`: its index in the full list, -1 when it is gone. */
    function LongClickPosition(position: int): (r: int)
      requires 0 <= position < |filteredItems|
      reads this
      ensures -1 <= r < |allItems|
      ensures filteredItems[position] in allItems ==> 0 <= r && allItems[r] == filteredItems[position]
      ensures filteredItems[position] !in allItems ==> r == -1
    {
      IndexOfItem(allItems, filteredItems[position])
    }
  }

  /**
   * The files found when the storage screen opens are added to the shared
   * list one by one and then shown by notifyItemsChanged: every one of
   * them is shown, after the items the list already held, and a long
   * click on any shown item reports a real position.
   */
  method OpenStorage(items: seq<StorageListItem>, found: seq<StorageListItem>) returns (manager: StorageListManager)
    ensures manager.allItems == items + found && manager.filteredItems == items + found
    ensures forall i :: 0 <= i < |manager.filteredItems| ==> 0 <= manager.LongClickPosition(i)
  {
    manager := new StorageListManager(items);
    var i := 0;
    while i < |found|
      invariant 0 <= i <= |found|
      invariant manager.allItems == items + found[..i] && manager.filteredItems == items
    {
      manager.ItemAdded(found[i]);
      assert found[..i + 1] == found[..i] + [found[i]];
      i := i + 1;
    }
    assert found[..i] == found;
    manager.NotifyItemsChanged();
  }

  // ---------------------------------------------------------------- subjects

  /** SubjectListManager over subjects of type S, `titleOf` reading a subject's title. */
  class SubjectListManager<S(==)> {
    /** The activity's subject list, shared with the activity, which adds and removes subjects in it. */
    var allSubjects: seq<S>
    const titleOf: S -> Option<string>
    var filteredSubjects: seq<S>

    constructor (subjects: seq<S>, titleOf: S -> Option<string>)
      ensures allSubjects == subjects && this.titleOf == titleOf && filteredSubjects == subjects
    {
      allSubjects := subjects;
      this.titleOf := titleOf;
      filteredSubjects := subjects;
    }

    method Filter(query: Option<string>)
      modifies this
      ensures allSubjects == old(allSubjects)
      ensures filteredSubjects == Filtered(allSubjects, titleOf, query)
    {
      filteredSubjects := FilterItems(allSubjects, titleOf, query);
    }

    method ResetFilter()
      modifies this
      ensures allSubjects == old(allSubjects) && filteredSubjects == allSubjects
    {
      filteredSubjects := allSubjects;
    }

    /** The activity's subjectList.add(newSubject) on the shared list: appended there, not yet shown. */
    method SubjectAdded(subject: S)
      modifies this
      ensures allSubjects == old(allSubjects) + [subject] && filteredSubjects == old(filteredSubjects)
    {
      allSubjects := allSubjects + [subject];
    }

    /** The activity's subjectList.remove(position) on the shared list; the shown list keeps the subject. */
    method SubjectRemoved(position: int)
      requires 0 <= position < |allSubjects|
      modifies this
      ensures allSubjects == old(allSubjects[..position]) + old(allSubjects[position + 1..]) && filteredSubjects == old(filteredSubjects)
    {
      allSubjects := allSubjects[..position] + allSubjects[position + 1..];
    }

    /** A long click on a shown subject reports its position in the full list. */
    method LongClickPosition(position: int) returns (r: int)
      requires 0 <= position < |filteredSubjects|
      ensures -1 <= r < |allSubjects|
      ensures filteredSubjects[position] in allSubjects ==> 0 <= r && allSubjects[r] == filteredSubjects[position]
      ensures filteredSubjects[position] !in allSubjects ==> r == -1
    {
      r := IndexOfItem(allSubjects, filteredSubjects[position]);
    }
  }

  /** After a search, every shown subject is one of the full list, so its long click reports a real position. */
  lemma {:induction false} ShownSubjectsAreListed<S>(all: seq<S>, titleOf: S -> Option<string>, query: Option<string>, x: S)
    requires x in Filtered(all, titleOf, query)
    ensures 0 <= IndexOfItem(all, x) && all[IndexOfItem(all, x)] == x
  {
    if query.Some? && query.value != "" {
      FilteredMembers(all, titleOf, query.value, x);
    }
  }

  // ---------------------------------------------------------------- topics

  function TopicTitle(t: Challenges.Topic): Option<string> { Some(t.title) }

  /** TopicListAdapter: the master list and the list the adapter shows, kept as separate copies. */
  class TopicListAdapter {
    var myTopics: seq<Challenges.Topic>
    var shown: seq<Challenges.Topic>

    constructor (topics: seq<Challenges.Topic>)
      ensures myTopics == topics && shown == topics
    {
      myTopics := topics;
      shown := topics;
    }

    method Filter(query: Option<string>)
      modifies this
      ensures shown == Filtered(myTopics, TopicTitle, query) && myTopics == old(myTopics)
    {
      shown := FilterItems(myTopics, TopicTitle, query);
    }

    method ResetFilter()
      modifies this
      ensures shown == myTopics && myTopics == old(myTopics)
    {
      shown := [];
      shown := shown + myTopics;
    }

    /** Replaces both lists; null empties them. */
    method UpdateTopics(topics: Option<seq<Challenges.Topic>>)
      modifies this
      ensures myTopics == shown == (if topics.Some? then topics.value else [])
    {
      myTopics := [];
      shown := [];
      if topics.Some? {
        myTopics := myTopics + topics.value;
        shown := shown + topics.value;
      }
    }
  }

  /** The row status: ✓ when the topic is completed, ◐ when it has been tried, ○ otherwise. */
  function Status(completed: bool, totalAttempts: int): (r: string)
    ensures completed ==> r == "✓"
    ensures !completed && totalAttempts > 0 ==> r == "◐"
    ensures !completed && totalAttempts <= 0 ==> r == "○"
  {
    if completed then "✓" else if totalAttempts > 0 then "◐" else "○"
  }

  /**
   * The dot row of a topic: one dot per challenge, at most ten, each
   * marked when its challenge is completed, and an ellipsis when there are
   * more challenges than dots. No challenges: no dots and no ellipsis.
   */
  function DotRow(challenges: seq<Challenges.ChallengeData>): (r: (seq<bool>, bool))
    ensures |r.0| == if |challenges| < 10 then |challenges| else 10
    ensures forall i :: 0 <= i < |r.0| ==> r.0[i] == challenges[i].completed
    ensures r.1 <==> |challenges| > 10
  {
    if |challenges| == 0 then ([], false)
    else
      var maxDots := if |challenges| < 10 then |challenges| else 10;
      (seq(maxDots, i requires 0 <= i < maxDots => challenges[i].completed), |challenges| > maxDots)
  }
}
