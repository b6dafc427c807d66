/** Browsing the admin document list while documents are uploaded and edited. */
module DocumentWalks {
  import opened Wrappers
  import Uuids
  import Timestamps
  import opened Keysets
  import opened KeysetWalks
  import KeysetPages
  import opened DocumentStores
  import opened Databases
  import opened SqlDocumentStores
  import opened StoreAgreement
  import opened Seam

  lemma EvolvedOnward(a: Summaries, b: Summaries, c: Summaries)
    requires Evolved(a, b, SummaryKey) && Evolved(b, c, SummaryKey)
    ensures Evolved(a, c, SummaryKey)
  {
  }

  /** The tables after commits of any of the writers: uploads, admin edits, background job rows. */
  ghost function AfterCommits(t: Tables, commits: seq<Commit>): (t': Tables)
    requires SeamOk(t)
    ensures SeamOk(t')
    decreases |commits|
  {
    if commits == [] then t
    else
      CommitKeeps(t, commits[0]);
      AfterCommits(AfterCommit(t, commits[0]), commits[1..])
  }

  /** What each fetch finds, when `batches[i]` is committed between fetch `i` and the next. */
  ghost function Views(t: Tables, batches: seq<seq<Commit>>): (views: seq<Summaries>)
    requires SeamOk(t)
    ensures |views| == |batches| + 1 && views[0] == View(t)
    decreases |batches|
  {
    if batches == [] then [View(t)] else [View(t)] + Views(AfterCommits(t, batches[0]), batches[1..])
  }

  lemma JobRowsDoNotShow(t: Tables, id: Uuids.Uuid, row: JobStores.Row)
    requires Sound(t)
    ensures View(t.(jobs := t.jobs[id := row])) == View(t)
  {
  }

  lemma AddEvolves(view: Summaries, summary: DocumentSummary)
    requires summary.documentId !in view
    ensures Evolved(view, view[summary.documentId := summary], SummaryKey)
  {
  }

  /** No update moves a document, whichever way a store stamps it. */
  lemma UpdateEvolves(stamping: Stamping, view: Summaries, id: Uuids.Uuid, update: DocumentUpdate,
    now: Timestamps.DateTime)
    ensures Evolved(view, UpdatedView(stamping, view, id, update, now), SummaryKey)
  {
    hide MergedAcl;
  }

  /** No commit takes a document from the list or moves it. */
  lemma CommitEvolves(t: Tables, c: Commit)
    requires SeamOk(t)
    ensures SeamOk(AfterCommit(t, c)) && Evolved(View(t), View(AfterCommit(t, c)), SummaryKey)
  {
    hide AtMostOneCurrent, CurrentVersion, Posted, EditedTables, Evolved, CurrentAcl, UpdatedView;
    CommitKeeps(t, c);
    NothingEvolves(View(t));
    if Possible(t, c) {
      match c
      case Post(id, versionId, repositoryId, acl, now) =>
        PostedView(t, id, versionId, repositoryId, acl, now);
        AddEvolves(View(t), DocumentSummary(id, repositoryId, "active", None, now, now, Some(acl)));
      case Put(id, update, now) =>
        EditsOverlay(t, id, update, now);
        UpdateEvolves(DocumentColumns, View(t), id, update, now);
      case SaveJob(id, row) => JobRowsDoNotShow(t, id, row);
    }
  }

  lemma {:induction false} CommitsEvolve(t: Tables, commits: seq<Commit>)
    requires SeamOk(t)
    ensures Evolved(View(t), View(AfterCommits(t, commits)), SummaryKey)
    decreases |commits|
  {
    hide View, AfterCommit, AtMostOneCurrent, CurrentVersion, Evolved;
    if commits == [] {
      NothingEvolves(View(t));
    } else {
      var next := AfterCommit(t, commits[0]);
      CommitEvolves(t, commits[0]);
      CommitsEvolve(next, commits[1..]);
      EvolvedOnward(View(t), View(next), View(AfterCommits(next, commits[1..])));
    }
  }

  lemma NothingEvolves(view: Summaries)
    ensures Evolved(view, view, SummaryKey)
  {
  }

  lemma {:induction false} ViewsEvolve(t: Tables, batches: seq<seq<Commit>>)
    requires SeamOk(t)
    ensures Evolving(Views(t, batches), SummaryKey)
    ensures forall i :: 0 <= i <= |batches| ==> Evolved(View(t), Views(t, batches)[i], SummaryKey)
    decreases |batches|
  {
    hide View, AfterCommits, AtMostOneCurrent, CurrentVersion, Evolved;
    NothingEvolves(View(t));
    if batches != [] {
      var next := AfterCommits(t, batches[0]);
      CommitsEvolve(t, batches[0]);
      ViewsEvolve(next, batches[1..]);
      var later := Views(next, batches[1..]);
      forall i | 0 <= i <= |batches|
        ensures Evolved(View(t), Views(t, batches)[i], SummaryKey)
      {
        if i > 0 {
          EvolvedOnward(View(t), View(next), later[i - 1]);
        }
      }
      forall i, j | 0 <= i <= j <= |batches|
        ensures Evolved(Views(t, batches)[i], Views(t, batches)[j], SummaryKey)
      {
        if i > 0 {
          assert Evolved(later[i - 1], later[j - 1], SummaryKey);
        }
      }
    }
  }

  /** For any page size and whatever is uploaded or edited between the fetches: the documents come in
      strictly descending order of (created_at, document_id), and a walk followed to its end shows every
      document that was there when it began exactly once. */
  lemma BrowseUnderChange(pages: seq<Page<DocumentSummary>>, t: Tables, batches: seq<seq<Commit>>, limit: nat)
    requires SeamOk(t) && IsWalk(pages, Views(t, batches), None, limit, SummaryKey) && limit >= 1
    ensures LatestDocumentsFirst(Items(pages))
    ensures Finished(pages) ==> forall id :: id in t.documents ==> ShownOnce(Items(pages), id, SummaryKey)
  {
    hide IsWalk, LatestFirst, LatestDocumentsFirst, Evolving, ShownOnce, Shows, AtMostOneCurrent, CurrentVersion;
    var views := Views(t, batches);
    ViewsEvolve(t, batches);
    WalkLatestFirst(pages, views, None, None, limit, SummaryKey);
    LatestDocuments(Items(pages));
    if Finished(pages) {
      forall id | id in t.documents
        ensures ShownOnce(Items(pages), id, SummaryKey)
      {
        WalkShows(pages, views, None, None, limit, SummaryKey, id);
        ShownIsShownOnce(pages, views, None, limit, SummaryKey, id);
      }
    }
  }

  lemma NotYetThere(views: seq<Summaries>, id: Uuids.Uuid, j: nat)
    requires Evolving(views, SummaryKey) && 0 < j <= |views| && id !in views[j - 1]
    ensures forall i :: 0 <= i < j ==> id !in views[i]
  {
    forall i | 0 <= i < j
      ensures id !in views[i]
    {
      assert Evolved(views[i], views[j - 1], SummaryKey);
    }
  }

  lemma NoCursorDecodes()
    ensures DecodeBound(None) == Success(None)
  {
  }

  /** An upload between two fetches is shown, and then once, if and only if it sorts below the last
      document seen. */
  lemma UploadMidWalk(pages: seq<Page<DocumentSummary>>, t: Tables, batches: seq<seq<Commit>>, limit: nat, j: nat,
    id: Uuids.Uuid)
    requires SeamOk(t) && IsWalk(pages, Views(t, batches), None, limit, SummaryKey) && limit >= 1 && Finished(pages)
    requires 0 < j < |pages| <= |batches| + 1
    requires id in Views(t, batches)[j] && id !in Views(t, batches)[j - 1]
    ensures var seen := pages[j - 1].items;
      && |seen| > 0
      && (ShownOnce(Items(pages), id, SummaryKey)
        <==> ListedBefore(SummaryKey(seen[|seen| - 1]), SummaryKey(Views(t, batches)[j][id])))
  {
    hide IsWalk, Below, ListedBefore, ShownOnce, Shows, AtMostOneCurrent, CurrentVersion, Views, DecodeBound, Evolving;
    NoCursorDecodes();
    var views := Views(t, batches);
    ViewsEvolve(t, batches);
    NotYetThere(views, id, j);
    InsertedMidWalk(pages, views, None, limit, SummaryKey, j, id);
    KeysetPages.CursorIsLastShown(pages, views, None, limit, SummaryKey, j - 1);
    var seen := pages[j - 1].items;
    BelowIsAfter(SummaryKey(seen[|seen| - 1]), SummaryKey(views[j][id]));
    ShownIsShownOnce(pages, views, None, limit, SummaryKey, id);
  }
}
