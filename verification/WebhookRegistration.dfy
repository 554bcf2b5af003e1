/**
 Registering the webhooks of a workflow, with roll-back: `addWebhooks` and `clearWebhooks` of
 packages/cli/src/active-workflow-manager.ts over the table behind `storeWebhook`, which upserts.
 */
module WebhookRegistration {
  import opened Wrappers

  type WorkflowId = string

  /** The table is keyed by method and path. */
  datatype Key = Key(httpMethod: string, path: string)

  datatype Row = Row(workflowId: WorkflowId, node: string, webhookId: Option<string>, pathLength: Option<nat>)

  type Table = map<Key, Row>

  datatype Webhook = Webhook(node: string, path: string, httpMethod: string, nodeWebhookId: Option<string>)

  datatype Activation = Init | LeadershipChange | Activate | Update

  /** What happens to one webhook: stored and set up, or an error at the store or at the set-up. */
  datatype Outcome = Fine | StoreError(queryFailed: bool) | SetupError(queryFailed: bool)

  datatype Result = NoWebhooks | Added | ThrewAt(i: nat, cleared: bool) | ThrewAfter

  predicate Lenient(mode: Activation) {
    mode == Init || mode == LeadershipChange
  }

  // ----- Rows -----

  function Trim(path: string): string {
    var p := if |path| > 0 && path[0] == '/' then path[1..] else path;
    if |p| > 0 && p[|p| - 1] == '/' then p[..|p| - 1] else p
  }

  predicate IsDynamic(path: string) {
    (|path| > 0 && path[0] == ':') || exists i :: 0 <= i < |path| - 1 && path[i] == '/' && path[i + 1] == ':'
  }

  function Segments(path: string): nat {
    if path == "" then 1 else (if path[0] == '/' then 1 else 0) + Segments(path[1..])
  }

  function KeyOf(w: Webhook): Key {
    Key(w.httpMethod, Trim(w.path))
  }

  function RowOf(id: WorkflowId, w: Webhook): Row {
    if IsDynamic(w.path) && w.nodeWebhookId.Some? && w.nodeWebhookId.value != "" then
      Row(id, w.node, w.nodeWebhookId, Some(Segments(Trim(w.path))))
    else
      Row(id, w.node, None, None)
  }

  function Upsert(t: Table, id: WorkflowId, w: Webhook): Table {
    t[KeyOf(w) := RowOf(id, w)]
  }

  function Clear(t: Table, id: WorkflowId): Table {
    map k | k in t && t[k].workflowId != id :: t[k]
  }

  // ----- What the loop leaves behind -----

  predicate Ignored(o: Outcome, mode: Activation) {
    o.Fine? || (o.queryFailed && Lenient(mode))
  }

  predicate Wrote(o: Outcome) {
    !o.StoreError?
  }

  /** The table after the first `n` webhooks have been gone through. */
  function After(t: Table, id: WorkflowId, ws: seq<Webhook>, os: seq<Outcome>, n: nat): Table
    requires n <= |ws| == |os|
  {
    if n == 0 then t else
      var t' := After(t, id, ws, os, n - 1);
      if Wrote(os[n - 1]) then Upsert(t', id, ws[n - 1]) else t'
  }

  /** A key that the first `n` turns write. */
  ghost predicate Taken(ws: seq<Webhook>, os: seq<Outcome>, n: nat, k: Key)
    requires n <= |ws| == |os|
  {
    exists i :: 0 <= i < n && Wrote(os[i]) && KeyOf(ws[i]) == k
  }

  lemma {:induction false} AfterRows(t: Table, id: WorkflowId, ws: seq<Webhook>, os: seq<Outcome>, n: nat)
    requires n <= |ws| == |os|
    ensures forall k :: k in After(t, id, ws, os, n) <==> k in t || Taken(ws, os, n, k)
    ensures forall k :: k in After(t, id, ws, os, n) ==>
      if Taken(ws, os, n, k) then After(t, id, ws, os, n)[k].workflowId == id
      else k in t && After(t, id, ws, os, n)[k] == t[k]
  {
    if n > 0 {
      AfterRows(t, id, ws, os, n - 1);
      forall k ensures Taken(ws, os, n, k) <==> Taken(ws, os, n - 1, k) || (Wrote(os[n - 1]) && KeyOf(ws[n - 1]) == k) {
        if Wrote(os[n - 1]) && KeyOf(ws[n - 1]) == k {
          assert 0 <= n - 1 < n;
        }
      }
    }
  }

  /** No slash at either end. */
  predicate Bare(path: string) {
    path != "" ==> path[0] != '/' && path[|path| - 1] != '/'
  }

  /** Which paths share a row: a bare path with at most one slash more at each end, and no other. */
  lemma SamePath(q: string, p: string)
    requires Bare(p)
    ensures Trim(q) == p <==> q == p || q == "/" + p || q == p + "/" || q == "/" + p + "/"
  {
    if Trim(q) == p {
      var r := if |q| > 0 && q[0] == '/' then q[1..] else q;
      assert q == r || q == "/" + r;
      assert r == p || r == p + "/";
    }
    assert ("/" + p + "/")[1..] == p + "/" && ("/" + p)[1..] == p && (p + "/")[..|p|] == p;
    if p == "" {
      assert "/"[1..] == "";
      assert "//"[1..] == "/" && "/"[..0] == "";
    }
  }

  /** One slash is off the front if there was one, and one off the end of what was left. */
  ghost predicate Peeled(path: string, bare: string) {
    exists lead, trail :: IsPeel(path, lead, bare, trail)
  }

  predicate IsPeel(path: string, lead: string, bare: string, trail: string) {
    && path == lead + bare + trail && lead in {"", "/"} && trail in {"", "/"}
    && (lead == "" ==> path == "" || path[0] != '/')
    && (trail == "" ==> bare == "" || bare[|bare| - 1] != '/')
  }

  lemma TrimPeels(path: string)
    ensures Peeled(path, Trim(path))
  {
    var lead := if |path| > 0 && path[0] == '/' then "/" else "";
    var rest := path[|lead|..];
    var trail := if |rest| > 0 && rest[|rest| - 1] == '/' then "/" else "";
    assert path == lead + rest;
    assert rest == Trim(path) + trail;
    assert IsPeel(path, lead, Trim(path), trail);
  }

  /** A path with a parameter in it, at a node that has a webhook id. */
  ghost predicate NeedsId(w: Webhook) {
    && w.nodeWebhookId.Some? && w.nodeWebhookId.value != ""
    && HasParameter(w.path)
  }

  predicate Around(path: string, before: string, rest: string) {
    path == before + "/:" + rest
  }

  /** The path begins with a colon or has a segment that does. */
  ghost predicate HasParameter(path: string) {
    (path != "" && path[..1] == ":") || exists before, rest :: Around(path, before, rest)
  }

  lemma DynamicMeans(path: string)
    ensures IsDynamic(path) <==> HasParameter(path)
  {
    if i :| 0 <= i < |path| - 1 && path[i] == '/' && path[i + 1] == ':' {
      assert Around(path, path[..i], path[i + 2..]);
    }
    forall before, rest | Around(path, before, rest) ensures IsDynamic(path) {
      assert path[|before|] == '/' && path[|before| + 1] == ':';
    }
  }

  /**
   What is stored for a webhook: its method, its path without slashes around it, and the parts of a path
   with parameters.
   */
  lemma RowMeans(id: WorkflowId, w: Webhook)
    ensures KeyOf(w).httpMethod == w.httpMethod && Peeled(w.path, KeyOf(w).path)
    ensures var row := RowOf(id, w);
      && row.workflowId == id && row.node == w.node
      && (NeedsId(w) ==> row.webhookId == w.nodeWebhookId && row.pathLength == Some(multiset(KeyOf(w).path)['/'] + 1))
      && (!NeedsId(w) ==> row.webhookId == None && row.pathLength == None)
  {
    TrimPeels(w.path);
    DynamicMeans(w.path);
    SegmentsCount(Trim(w.path));
  }

  lemma {:induction false} SegmentsCount(path: string)
    ensures Segments(path) == multiset(path)['/'] + 1
  {
    if path != "" {
      SegmentsCount(path[1..]);
      assert path == [path[0]] + path[1..];
    }
  }

  /** The entity for one webhook, with its path normalised step by step. */
  method CreateRow(id: WorkflowId, w: Webhook) returns (key: Key, row: Row)
    ensures key == KeyOf(w) && row == RowOf(id, w)
  {
    var path := w.path;
    if |path| > 0 && path[0] == '/' {
      path := path[1..];
    }
    if |path| > 0 && path[|path| - 1] == '/' {
      path := path[..|path| - 1];
    }
    key, row := Key(w.httpMethod, path), Row(id, w.node, None, None);
    if IsDynamic(w.path) && w.nodeWebhookId.Some? && w.nodeWebhookId.value != "" {
      row := row.(webhookId := w.nodeWebhookId, pathLength := Some(Segments(path)));
    }
  }

  // ----- All or nothing -----

  ghost predicate NoRows(t: Table, id: WorkflowId) {
    forall k :: k in t ==> t[k].workflowId != id
  }

  ghost predicate AllStored(t: Table, id: WorkflowId, ws: seq<Webhook>) {
    forall i :: 0 <= i < |ws| ==> KeyOf(ws[i]) in t && t[KeyOf(ws[i])].workflowId == id
  }

  /** Outside init and leadership change, a run that gets through stores every webhook. */
  lemma SuccessStoresAll(t: Table, id: WorkflowId, ws: seq<Webhook>, os: seq<Outcome>, mode: Activation)
    requires |os| == |ws| && !Lenient(mode) && forall i :: 0 <= i < |ws| ==> Ignored(os[i], mode)
    ensures AllStored(After(t, id, ws, os, |ws|), id, ws)
  {
    AfterRows(t, id, ws, os, |ws|);
    forall i | 0 <= i < |ws| ensures Taken(ws, os, |ws|, KeyOf(ws[i])) {
      assert Ignored(os[i], mode);
    }
  }

  /** Of several webhooks with one key, the last one stored is what the row says. */
  lemma {:induction false} LastWriterWins(t: Table, id: WorkflowId, ws: seq<Webhook>, os: seq<Outcome>, n: nat, i: nat)
    requires i < n <= |ws| == |os| && Wrote(os[i])
    requires forall j :: i < j < n && Wrote(os[j]) ==> KeyOf(ws[j]) != KeyOf(ws[i])
    ensures KeyOf(ws[i]) in After(t, id, ws, os, n) && After(t, id, ws, os, n)[KeyOf(ws[i])] == RowOf(id, ws[i])
    decreases n
  {
    if i < n - 1 {
      LastWriterWins(t, id, ws, os, n - 1, i);
    }
  }

  /** No error, or a failed query at start-up or on a change of leader. */
  predicate Harmless(o: Outcome, mode: Activation) {
    match o
    case Fine => true
    case StoreError(queryFailed) => queryFailed && (mode == Init || mode == LeadershipChange)
    case SetupError(queryFailed) => queryFailed && (mode == Init || mode == LeadershipChange)
  }

  /** The workflow had no rows, and the first `n` turns wrote none. */
  ghost predicate NothingWritten(t: Table, id: WorkflowId, os: seq<Outcome>, n: nat) {
    NoRows(t, id) && forall i :: 0 <= i < n && i < |os| ==> os[i].StoreError?
  }

  /** Without a clean-up, none of the workflow's rows remain only if there never were any. */
  lemma ThrowLeavesNone(t: Table, id: WorkflowId, ws: seq<Webhook>, os: seq<Outcome>, n: nat)
    requires n <= |ws| == |os|
    ensures NoRows(After(t, id, ws, os, n), id) <==> NothingWritten(t, id, os, n)
  {
    AfterRows(t, id, ws, os, n);
    var t' := After(t, id, ws, os, n);
    forall i | 0 <= i < n && Wrote(os[i]) ensures KeyOf(ws[i]) in t' && t'[KeyOf(ws[i])].workflowId == id {
      assert Taken(ws, os, n, KeyOf(ws[i]));
    }
  }

  ghost predicate OthersKept(t: Table, t': Table, id: WorkflowId) {
    forall k :: k in t && t[k].workflowId != id ==> k in t' && t'[k] == t[k]
  }

  ghost predicate KeysFree(t: Table, id: WorkflowId, ws: seq<Webhook>, os: seq<Outcome>, n: nat)
    requires n <= |ws| == |os|
  {
    forall i :: 0 <= i < n && Wrote(os[i]) && KeyOf(ws[i]) in t ==> t[KeyOf(ws[i])].workflowId == id
  }

  /** The rows of other workflows stay as they are exactly when no key written was theirs. */
  lemma OthersKeptIffKeysFree(t: Table, id: WorkflowId, ws: seq<Webhook>, os: seq<Outcome>, n: nat)
    requires n <= |ws| == |os|
    ensures OthersKept(t, After(t, id, ws, os, n), id) <==> KeysFree(t, id, ws, os, n)
    ensures OthersKept(t, Clear(After(t, id, ws, os, n), id), id) <==> KeysFree(t, id, ws, os, n)
  {
  }

  /** A taken path: the second workflow's registration takes the row over, and its roll-back deletes it. */
  lemma TakenPathIsOverwritten() returns (t: Table, ws: seq<Webhook>, os: seq<Outcome>)
    ensures |os| == |ws| == 1 && t == map[Key("GET", "orders") := Row("first", "Webhook", None, None)]
    ensures var t' := After(t, "second", ws, [Fine], 1);
      Key("GET", "orders") in t' && t'[Key("GET", "orders")].workflowId == "second"
    ensures Clear(After(t, "second", ws, [SetupError(false)], 1), "second") == map[]
  {
    t := map[Key("GET", "orders") := Row("first", "Webhook", None, None)];
    ws, os := [Webhook("Webhook", "/orders/", "GET", None)], [Fine];
    assert "/orders/"[1..] == "orders/" && "orders/"[..|"orders/"| - 1] == "orders";
    assert KeyOf(ws[0]) == Key("GET", "orders");
    assert After(t, "second", ws, [SetupError(false)], 1) == Upsert(t, "second", ws[0]);
  }

  /** How the table stands when the loop has ended, whether or not the cache then fails. */
  lemma GotThrough(t: Table, id: WorkflowId, ws: seq<Webhook>, os: seq<Outcome>, mode: Activation)
    requires ws != [] && |os| == |ws| && forall i :: 0 <= i < |ws| ==> Ignored(os[i], mode)
    ensures var t' := After(t, id, ws, os, |ws|);
      && (!Lenient(mode) ==> AllStored(t', id, ws) && !NoRows(t', id))
      && (OthersKept(t, t', id) <==> KeysFree(t, id, ws, os, |ws|))
  {
    OthersKeptIffKeysFree(t, id, ws, os, |ws|);
    if !Lenient(mode) {
      SuccessStoresAll(t, id, ws, os, mode);
      assert KeyOf(ws[0]) in After(t, id, ws, os, |ws|);
    }
  }

  /** How the table stands after `n` turns, with and without the clean-up. */
  lemma RolledBack(t: Table, id: WorkflowId, ws: seq<Webhook>, os: seq<Outcome>, n: nat)
    requires n <= |ws| == |os|
    ensures var t' := After(t, id, ws, os, n);
      && NoRows(Clear(t', id), id)
      && (NoRows(t', id) <==> NothingWritten(t, id, os, n))
      && (OthersKept(t, t', id) <==> KeysFree(t, id, ws, os, n))
      && (OthersKept(t, Clear(t', id), id) <==> KeysFree(t, id, ws, os, n))
  {
    ThrowLeavesNone(t, id, ws, os, n);
    OthersKeptIffKeysFree(t, id, ws, os, n);
  }

  class ActiveWorkflowManager {
    /** The webhook table of the database. */
    var webhooks: Table

    /** Fails, and deletes nothing, when the workflow, its active version or an external clean-up fails. */
    method ClearWebhooks(id: WorkflowId, canClear: bool) returns (ok: bool)
      modifies this
      ensures ok == canClear
      ensures webhooks == if canClear then Clear(old(webhooks), id) else old(webhooks)
      ensures ok ==> NoRows(webhooks, id) && OthersKept(old(webhooks), webhooks, id)
      ensures webhooks.Keys <= old(webhooks).Keys
    {
      if !canClear {
        return false;
      }
      webhooks := map k | k in webhooks && webhooks[k].workflowId != id :: webhooks[k];
      return true;
    }

    /** `cacheWorks` says whether `populateCache`, after the loop, returns. */
    method AddWebhooks(id: WorkflowId, ws: seq<Webhook>, mode: Activation, os: seq<Outcome>, canClear: bool,
        cacheWorks: bool)
      returns (r: Result)
      requires |os| == |ws|
      modifies this
      ensures ws == [] <==> r == NoWebhooks
      ensures r == NoWebhooks ==> webhooks == old(webhooks)
      ensures r == Added || r == ThrewAfter ==>
        && (forall i :: 0 <= i < |ws| ==> Ignored(os[i], mode))
        && webhooks == After(old(webhooks), id, ws, os, |ws|)
        && (r == Added <==> cacheWorks)
      ensures r.ThrewAt? ==>
        && r.i < |ws| && !Ignored(os[r.i], mode) && (forall i :: 0 <= i < r.i ==> Ignored(os[i], mode))
        && r.cleared == canClear
        && webhooks == var t := After(old(webhooks), id, ws, os, r.i + 1); if canClear then Clear(t, id) else t
      ensures mode != Init && mode != LeadershipChange && r == Added ==> AllStored(webhooks, id, ws)
      ensures mode != Init && mode != LeadershipChange && r == ThrewAfter ==>
        AllStored(webhooks, id, ws) && !NoRows(webhooks, id)
      ensures r == Added || r == ThrewAfter ==> forall i :: 0 <= i < |ws| ==> Harmless(os[i], mode)
      ensures r.ThrewAt? ==> r.i < |os| && !Harmless(os[r.i], mode) && forall i :: 0 <= i < r.i ==>
        Harmless(os[i], mode)
      ensures r.ThrewAt? ==>
        (NoRows(webhooks, id) <==> canClear || NothingWritten(old(webhooks), id, os, r.i + 1))
      ensures r != NoWebhooks ==>
        (OthersKept(old(webhooks), webhooks, id) <==>
          KeysFree(old(webhooks), id, ws, os, if r.ThrewAt? then r.i + 1 else |ws|))
    {
      if |ws| == 0 {
        return NoWebhooks;
      }
      var failed := StoreWebhooks(id, ws, mode, os);
      if failed.Some? {
        RolledBack(old(webhooks), id, ws, os, failed.value + 1);
        var cleared := ClearWebhooks(id, canClear);
        return ThrewAt(failed.value, cleared);
      }
      GotThrough(old(webhooks), id, ws, os, mode);
      if !cacheWorks {
        return ThrewAfter;
      }
      return Added;
    }

    /** The loop, up to the first error that is not ignored. */
    method StoreWebhooks(id: WorkflowId, ws: seq<Webhook>, mode: Activation, os: seq<Outcome>)
        returns (failed: Option<nat>)
      requires |os| == |ws|
      modifies this
      ensures failed.None? ==>
        && (forall i :: 0 <= i < |ws| ==> Ignored(os[i], mode))
        && webhooks == After(old(webhooks), id, ws, os, |ws|)
      ensures failed.Some? ==>
        && failed.value < |ws| && !Ignored(os[failed.value], mode)
        && (forall i :: 0 <= i < failed.value ==> Ignored(os[i], mode))
        && webhooks == After(old(webhooks), id, ws, os, failed.value + 1)
    {
      var i := 0;
      while i < |ws|
        invariant 0 <= i <= |ws|
        invariant forall j :: 0 <= j < i ==> Ignored(os[j], mode)
        invariant webhooks == After(old(webhooks), id, ws, os, i)
      {
        var o := os[i];
        var key, row := CreateRow(id, ws[i]);
        if !o.StoreError? {
          webhooks := webhooks[key := row];
        }
        if !o.Fine? && !(Lenient(mode) && o.queryFailed) {
          return Some(i);
        }
        i := i + 1;
      }
      return None;
    }
  }
}
