/** `manage/notices/AdminNoticeManage`: the notice list, narrowed by a title
    search on the client, with a confirmed delete. */
module NoticeManage {
  import opened Wrappers
  import opened Strings
  import opened Seqs
  import opened Client

  datatype Notice = Notice(noticeId: int, noticeTitle: string)

  predicate TitleMatches(term: string, notice: Notice) {
    ContainsIgnoreCase(notice.noticeTitle, term)
  }

  /** `filteredNotices`: the notices whose title contains the term, case
      aside, in their order. */
  function FilteredNotices(notices: seq<Notice>, term: string): (r: seq<Notice>)
    ensures forall n :: n in r <==> n in notices && TitleMatches(term, n)
    ensures IsSubseq(r, notices)
  {
    var matches := (n: Notice) => TitleMatches(term, n);
    FilterIsSubseq(notices, matches);
    Filter(notices, matches)
  }

  /** An empty search term shows every notice. */
  lemma EmptyTermKeepsAll(notices: seq<Notice>)
    ensures FilteredNotices(notices, "") == notices
  {
    assert Lower("") == "";
    forall i | 0 <= i < |notices|
      ensures TitleMatches("", notices[i])
    {
      ContainsEmpty(Lower(notices[i].noticeTitle));
    }
    FilterKeepsAll(notices, (n: Notice) => TitleMatches("", n));
  }

  /** `notices.filter(notice => notice.noticeId !== noticeId)`. */
  function WithoutNotice(notices: seq<Notice>, noticeId: int): (r: seq<Notice>)
    ensures forall n :: n in r <==> n in notices && n.noticeId != noticeId
    ensures IsSubseq(r, notices)
  {
    var other := (n: Notice) => n.noticeId != noticeId;
    FilterIsSubseq(notices, other);
    Filter(notices, other)
  }

  class NoticeScreen {
    var notices: seq<Notice>
    var searchTerm: string

    constructor ()
      ensures notices == [] && searchTerm == ""
    {
      notices := [];
      searchTerm := "";
    }

    function Shown(): seq<Notice>
      reads this
    {
      FilteredNotices(notices, searchTerm)
    }

    /** `fetchNotices()`; a failure keeps the list. */
    method FetchNotices(response: Option<seq<Notice>>) returns (sent: Request)
      modifies this`notices
      ensures sent == Request(Get, "/api/admin/notices", map[])
      ensures response.Some? ==> notices == response.value
      ensures response.None? ==> notices == old(notices)
    {
      sent := Request(Get, "/api/admin/notices", map[]);
      if response.Some? {
        notices := response.value;
      }
    }

    method SetSearchTerm(term: string)
      modifies this`searchTerm
      ensures searchTerm == term
    {
      searchTerm := term;
    }

    /** `handleDelete(noticeId)`: nothing without confirmation; otherwise the
        DELETE, and on success exactly that notice id leaves the list. */
    method HandleDelete(noticeId: int, confirmed: bool, ok: bool) returns (sent: seq<Request>)
      modifies this`notices
      ensures !confirmed ==> sent == [] && notices == old(notices)
      ensures confirmed ==> sent == [Del("/api/admin/notices/" + IntToString(noticeId))]
      ensures confirmed && ok ==> notices == WithoutNotice(old(notices), noticeId)
      ensures confirmed && !ok ==> notices == old(notices)
    {
      sent := [];
      if !confirmed {
        return;
      }
      sent := [Del("/api/admin/notices/" + IntToString(noticeId))];
      if ok {
        notices := Filter(notices, (n: Notice) => n.noticeId != noticeId);
      }
    }
  }
}
