/** The application lister (`get_all_applications`): pages through the
    legacy GraphQL API 100 records at a time and then applies the optional
    comma-separated name filter. The API is an input: `replies[k]` is what
    the server answers to the query at offset 100 * k, and past the end of
    `replies` it answers an empty page. */
module Lister {
  import opened Common
  import opened Applications

  /** The `limit` of every query, and the step of the offset. */
  const PageSize: nat := 100

  /** A decoded response: either the list at `data.applications.nodes`, or a
      body that lacks that path (the source's `KeyError`). */
  datatype Reply = Nodes(nodes: seq<Application>) | MissingKey

  /** The server's answer to the query for page `page`. */
  function ReplyAt(replies: seq<Reply>, page: nat): Reply
  {
    if page < |replies| then replies[page] else Nodes([])
  }

  /** The offset of the query for page `page`. */
  function OffsetOf(page: nat): nat
  {
    PageSize * page
  }

  /** The loop goes on only after a page that holds records. */
  predicate Continues(r: Reply)
  {
    r.Nodes? && r.nodes != []
  }

  /** The number of pages that hold records before the first page that ends
      the loop: it is the index of the first page that does not continue. */
  function PageCount(replies: seq<Reply>): (n: nat)
    ensures n <= |replies|
    ensures forall k :: 0 <= k < n ==> Continues(replies[k])
    ensures !Continues(ReplyAt(replies, n))
  {
    if replies != [] && Continues(replies[0]) then 1 + PageCount(replies[1..]) else 0
  }

  /** The records of the leading non-empty pages, concatenated in page order.
      Every page fetched before the stop adds at least one record. */
  function Collected(replies: seq<Reply>): (r: seq<Application>)
    ensures |r| >= PageCount(replies)
    ensures r == [] <==> PageCount(replies) == 0
  {
    if replies != [] && Continues(replies[0]) then replies[0].nodes + Collected(replies[1..]) else []
  }

  /** All the records of a run of pages, in order; a page without the nodes
      key contributes none. */
  function AllNodes(replies: seq<Reply>): seq<Application>
  {
    if replies == [] then [] else (if replies[0].Nodes? then replies[0].nodes else []) + AllNodes(replies[1..])
  }

  /** What the loop gathers is every record of the pages before the stop:
      the pages after the first empty or malformed one are never read. */
  lemma {:induction false} CollectedIsLeadingPages(replies: seq<Reply>)
    ensures Collected(replies) == AllNodes(replies[..PageCount(replies)])
  {
    if replies != [] && Continues(replies[0]) {
      CollectedIsLeadingPages(replies[1..]);
      var n := PageCount(replies);
      var lead := replies[..n];
      assert lead[0] == replies[0] && lead[1..] == replies[1..][..n - 1];
      assert AllNodes(lead) == replies[0].nodes + AllNodes(lead[1..]);
    } else {
      assert replies[..PageCount(replies)] == [];
    }
  }

  /** Splits a full list of records into the pages a server returns: full
      pages of PageSize, then the remainder if any. */
  function Pages(all: seq<Application>): seq<Reply>
    decreases |all|
  {
    if all == [] then []
    else if |all| <= PageSize then [Nodes(all)]
    else [Nodes(all[..PageSize])] + Pages(all[PageSize..])
  }

  /** A server holding N records in pages of 100 yields all N records, in
      order, after ceil(N / 100) pages; for N a multiple of 100 the loop ends
      on the empty page after the last full one. */
  lemma {:induction false} CollectsAllPages(all: seq<Application>)
    ensures Collected(Pages(all)) == all
    ensures PageCount(Pages(all)) == (|all| + PageSize - 1) / PageSize
  {
    PagesCollected(all);
    PagesCounted(all);
  }

  lemma {:induction false} PagesCollected(all: seq<Application>)
    ensures Collected(Pages(all)) == all
    decreases |all|
  {
    if |all| > PageSize {
      PagesCollected(all[PageSize..]);
      assert Pages(all)[1..] == Pages(all[PageSize..]);
      assert all[..PageSize] + all[PageSize..] == all;
    }
  }

  lemma {:induction false} PagesCounted(all: seq<Application>)
    ensures PageCount(Pages(all)) == (|all| + PageSize - 1) / PageSize
    decreases |all|
  {
    if |all| > PageSize {
      var rest := all[PageSize..];
      PagesCounted(rest);
      assert Pages(all)[1..] == Pages(rest);
      assert |all| + PageSize - 1 == (|rest| + PageSize - 1) + PageSize;
    }
  }

  /** Python's `s.split(sep)`: the pieces between separators, including
      empty pieces; never an empty list. */
  function SplitOn(s: string, sep: char): (parts: seq<string>)
    ensures |parts| >= 1
    ensures forall k :: 0 <= k < |parts| ==> sep !in parts[k]
  {
    if s == [] then [""]
    else
      var rest := SplitOn(s[1..], sep);
      if s[0] == sep then [""] + rest
      else [[s[0]] + rest[0]] + rest[1..]
  }

  /** Python's `sep.join(parts)`, the inverse of SplitOn. */
  function Join(parts: seq<string>, sep: char): string
    requires |parts| >= 1
  {
    if |parts| == 1 then parts[0] else parts[0] + [sep] + Join(parts[1..], sep)
  }

  lemma {:induction false} JoinSplitOn(s: string, sep: char)
    ensures Join(SplitOn(s, sep), sep) == s
  {
    if s != [] {
      JoinSplitOn(s[1..], sep);
      var rest := SplitOn(s[1..], sep);
      if s[0] == sep {
        assert SplitOn(s, sep)[1..] == rest;
        assert s == [sep] + s[1..];
      } else {
        var parts := SplitOn(s, sep);
        assert parts[0] == [s[0]] + rest[0];
        if |rest| == 1 {
          assert s == [s[0]] + s[1..];
        } else {
          assert parts[1..] == rest[1..];
          assert Join(rest, sep) == rest[0] + [sep] + Join(rest[1..], sep);
          assert s == [s[0]] + s[1..];
        }
      }
    }
  }

  /** A separator-free piece followed by a separator splits off as one part. */
  lemma {:induction false} SplitOnPiece(p: string, sep: char, tail: string)
    requires sep !in p
    ensures SplitOn(p + [sep] + tail, sep) == [p] + SplitOn(tail, sep)
    ensures SplitOn(p, sep) == [p]
  {
    if p != [] {
      SplitOnPiece(p[1..], sep, tail);
      assert (p + [sep] + tail)[1..] == p[1..] + [sep] + tail;
      assert [p[0]] + p[1..] == p;
    } else {
      assert [sep] + tail == p + [sep] + tail;
      assert ([sep] + tail)[1..] == tail;
    }
  }

  lemma {:induction false} SplitOnJoin(parts: seq<string>, sep: char)
    requires |parts| >= 1
    requires forall k :: 0 <= k < |parts| ==> sep !in parts[k]
    ensures SplitOn(Join(parts, sep), sep) == parts
  {
    if |parts| == 1 {
      SplitOnPiece(parts[0], sep, "");
    } else {
      SplitOnJoin(parts[1..], sep);
      SplitOnPiece(parts[0], sep, Join(parts[1..], sep));
      assert [parts[0]] + parts[1..] == parts;
    }
  }

  /** The test of main.py:168: the name's membership in the split filter
      differs from the reverse flag, and the split list is non-empty. */
  predicate Kept(a: Application, parts: seq<string>, reverse: bool)
  {
    ((a.name in parts) != reverse) && parts != []
  }

  /** The applications passing the name filter, in input order. */
  function NameFilter(apps: seq<Application>, parts: seq<string>, reverse: bool): (r: seq<Application>)
    ensures |r| <= |apps|
    ensures forall i :: 0 <= i < |r| ==> (r[i].name in parts) != reverse
    ensures forall i :: 0 <= i < |r| ==> r[i] in apps
  {
    FilterMembers(apps, a => Kept(a, parts, reverse));
    Filter(apps, a => Kept(a, parts, reverse))
  }

  /** What the name filter keeps, for a filter string as given on the
      command line: exactly the applications whose name is (for `reverse`
      false) or is not (for `reverse` true) one of the comma-separated
      pieces, compared exactly, in their input order. */
  lemma NameFilterKeeps(apps: seq<Application>, appFilter: string, reverse: bool)
    ensures var r := NameFilter(apps, SplitOn(appFilter, ','), reverse);
      IsSubseq(r, apps) &&
      (forall i :: 0 <= i < |r| ==> (r[i].name in SplitOn(appFilter, ',')) != reverse) &&
      (forall i :: 0 <= i < |apps| && (apps[i].name in SplitOn(appFilter, ',')) != reverse ==> apps[i] in r) &&
      (forall t: seq<Application> :: IsSubseq(t, apps) && (forall i :: 0 <= i < |t| ==> (t[i].name in SplitOn(appFilter, ',')) != reverse)
         ==> IsSubseq(t, r))
  {
    var parts := SplitOn(appFilter, ',');
    var keep := a => Kept(a, parts, reverse);
    FilterIsSubseq(apps, keep);
    FilterMembers(apps, keep);
    forall t: seq<Application> | IsSubseq(t, apps) && (forall i :: 0 <= i < |t| ==> (t[i].name in parts) != reverse)
      ensures IsSubseq(t, NameFilter(apps, parts, reverse))
    {
      forall x | x in t ensures keep(x) {
        var i :| 0 <= i < |t| && t[i] == x;
      }
      FilterIsLargest(t, apps, keep);
    }
  }

  /** The direct and the reverse filter split the fetched list between them. */
  lemma NameFilterPartition(apps: seq<Application>, appFilter: string)
    ensures var parts := SplitOn(appFilter, ',');
      multiset(NameFilter(apps, parts, false)) + multiset(NameFilter(apps, parts, true)) == multiset(apps) &&
      |NameFilter(apps, parts, false)| + |NameFilter(apps, parts, true)| == |apps|
  {
    var parts := SplitOn(appFilter, ',');
    FilterPartition(apps, a => Kept(a, parts, false), a => Kept(a, parts, true));
  }

  lemma OffsetPage(k: nat)
    ensures OffsetOf(k) / PageSize == k
    ensures OffsetOf(k) + PageSize == OffsetOf(k + 1)
  {
  }

  lemma CollectedFrom(replies: seq<Reply>, k: nat)
    requires k <= |replies|
    ensures Collected(replies[k..]) ==
      if Continues(ReplyAt(replies, k)) then replies[k].nodes + Collected(replies[k + 1..]) else []
  {
    if k < |replies| {
      assert replies[k..][1..] == replies[k + 1..];
    }
  }

  /** One step of the paging loop keeps the loop's invariant. */
  lemma CollectedStep(done: seq<Application>, replies: seq<Reply>, k: nat)
    requires k < |replies| && Continues(replies[k])
    requires done + Collected(replies[k..]) == Collected(replies)
    ensures (done + replies[k].nodes) + Collected(replies[k + 1..]) == Collected(replies)
  {
    CollectedFrom(replies, k);
    var later := Collected(replies[k + 1..]);
    assert (done + replies[k].nodes) + later == done + (replies[k].nodes + later);
  }

  /** One step of the filtering loop keeps the loop's invariant. */
  lemma NameFilterStep(done: seq<Application>, apps: seq<Application>, i: nat, parts: seq<string>, reverse: bool)
    requires i < |apps|
    requires done + NameFilter(apps[i..], parts, reverse) == NameFilter(apps, parts, reverse)
    ensures (done + if Kept(apps[i], parts, reverse) then [apps[i]] else []) + NameFilter(apps[i + 1..], parts, reverse)
            == NameFilter(apps, parts, reverse)
  {
    assert apps[i..][1..] == apps[i + 1..];
    var kept := if Kept(apps[i], parts, reverse) then [apps[i]] else [];
    var later := NameFilter(apps[i + 1..], parts, reverse);
    assert NameFilter(apps[i..], parts, reverse) == kept + later;
    assert (done + kept) + later == done + (kept + later);
  }

  /** The paging loop of `get_all_applications`: queries offsets 0, 100,
      200, ... and stops at the first page without records or at the first
      response without `data.applications.nodes`, keeping the records
      gathered so far either way. */
  method FetchPages(replies: seq<Reply>) returns (applications: seq<Application>, offsets: seq<nat>, authFailed: bool)
    ensures |offsets| == PageCount(replies) + 1
    ensures forall k :: 0 <= k < |offsets| ==> offsets[k] == OffsetOf(k)
    ensures authFailed <==> ReplyAt(replies, PageCount(replies)).MissingKey?
    ensures applications == Collected(replies)
  {
    applications := [];
    var offset: nat := 0;
    OffsetPage(0);
    var reply := ReplyAt(replies, offset / PageSize);
    offsets := [offset];
    while reply.Nodes? && reply.nodes != []
      invariant |offsets| >= 1 && offset == OffsetOf(|offsets| - 1)
      invariant forall k :: 0 <= k < |offsets| ==> offsets[k] == OffsetOf(k)
      invariant |offsets| - 1 <= |replies|
      invariant forall k :: 0 <= k < |offsets| - 1 ==> Continues(replies[k])
      invariant reply == ReplyAt(replies, |offsets| - 1)
      invariant applications + Collected(replies[|offsets| - 1..]) == Collected(replies)
      decreases |replies| - |offsets|
    {
      CollectedStep(applications, replies, |offsets| - 1);
      OffsetPage(|offsets|);
      OffsetPage(|offsets| - 1);
      applications := applications + reply.nodes;
      offset := offset + PageSize;
      reply := ReplyAt(replies, offset / PageSize);
      offsets := offsets + [offset];
    }
    CollectedFrom(replies, |offsets| - 1);
    authFailed := reply.MissingKey?;
  }

  /** The filtering loop of `get_all_applications`: with a non-empty filter
      string, keeps the applications passing the name test, in order; with
      an empty one, keeps the list as it is. */
  method FilterApplications(applications: seq<Application>, appFilter: string, reverseFilter: bool)
    returns (filtered: seq<Application>)
    ensures appFilter == "" ==> filtered == applications
    ensures appFilter != "" ==> filtered == NameFilter(applications, SplitOn(appFilter, ','), reverseFilter)
  {
    if appFilter != "" {
      var parts := SplitOn(appFilter, ',');
      filtered := [];
      for i := 0 to |applications|
        invariant filtered + NameFilter(applications[i..], parts, reverseFilter)
                  == NameFilter(applications, parts, reverseFilter)
      {
        NameFilterStep(filtered, applications, i, parts, reverseFilter);
        if (applications[i].name in parts) != reverseFilter && parts != [] {
          filtered := filtered + [applications[i]];
        }
      }
      assert applications[|applications|..] == [];
    } else {
      filtered := applications;
    }
  }

  /** `get_all_applications`: the paging loop, then the name filter. Returns
      the applications, the offsets queried in order, and whether the loop
      stopped on a response without `data.applications.nodes`. */
  method GetAllApplications(replies: seq<Reply>, appFilter: string, reverseFilter: bool)
    returns (result: seq<Application>, offsets: seq<nat>, authFailed: bool)
    ensures |offsets| == PageCount(replies) + 1
    ensures forall k :: 0 <= k < |offsets| ==> offsets[k] == OffsetOf(k)
    ensures authFailed <==> ReplyAt(replies, PageCount(replies)).MissingKey?
    ensures appFilter == "" ==> result == Collected(replies)
    ensures appFilter != "" ==> result == NameFilter(Collected(replies), SplitOn(appFilter, ','), reverseFilter)
  {
    var applications;
    applications, offsets, authFailed := FetchPages(replies);
    result := FilterApplications(applications, appFilter, reverseFilter);
  }
}
