/** `backend/services/workflow_service.py`: every stored document is a valid graph, so every execution starts from
    one. */
module WorkflowService {
  import opened Dag
  import opened Tasks
  import D = DagService
  import opened E = ExecutionState
  import opened Effects
  import opened Engine
  import opened EngineInv
  import opened EngineSafety
  import opened EngineOutcome

  type Label = nat

  /** A workflow, its current task definitions, and its revisions, the first one first. */
  datatype Workflow = Workflow(
    tenant: Q.TenantId,
    name: Label,
    currentRevision: nat,
    archived: bool,
    definitions: Document,
    revisions: seq<Document>)

  datatype Answer = Stored(id: Q.WorkflowId) | NameTaken | NotFound | NoTasks | Rejected(why: D.Verdict)

  type Workflows = map<Q.WorkflowId, Workflow>

  ghost predicate RowOk(w: Workflow) {
    && w.revisions != [] && w.currentRevision == |w.revisions| && w.definitions == w.revisions[|w.revisions| - 1]
    && forall i :: 0 <= i < |w.revisions| ==> w.revisions[i] != [] && ValidDocument(w.revisions[i])
  }

  /** No two workflows of a tenant share a name. */
  ghost predicate NamesApart(ws: Workflows) {
    forall a, b :: a in ws && b in ws && a != b && ws[a].tenant == ws[b].tenant ==> ws[a].name != ws[b].name
  }

  predicate NameExists(ws: Workflows, tenant: Q.TenantId, name: Label, except: set<Q.WorkflowId>) {
    exists id | id in ws :: id !in except && ws[id].tenant == tenant && ws[id].name == name
  }

  /** The verdict says what is wrong with the document. */
  ghost predicate Explains(why: D.Verdict, doc: Document) {
    match why
    case Valid => false
    case DuplicateNames => !UniqueNames(doc)
    case MissingDependency(d) => d !in NamesOf(doc) && exists i :: 0 <= i < |doc| && d in doc[i].dependencies
    case HasCycle => UniqueNames(doc) && KnownDependencies(doc) && !Acyclic(GraphOf(doc))
  }

  class WorkflowService {
    var workflows: Workflows
    var nextId: Q.WorkflowId

    ghost predicate Valid()
      reads this
    {
      && (forall id :: id in workflows ==> id < nextId && RowOk(workflows[id]))
      && NamesApart(workflows)
    }

    constructor ()
      ensures Valid() && workflows == map[]
    {
      workflows, nextId := map[], 0;
    }

    method CreateWorkflow(tenant: Q.TenantId, name: Label, doc: Document) returns (r: Answer)
      requires Valid()
      modifies this
      ensures Valid()
      ensures r.Stored? <==> doc != [] && ValidDocument(doc) && !NameExists(old(workflows), tenant, name, {})
      ensures r.Stored? ==>
        r.id !in old(workflows) && workflows == old(workflows)[r.id := Workflow(tenant, name, 1, false, doc, [doc])]
      ensures !r.Stored? ==> workflows == old(workflows)
      ensures r.NoTasks? <==> doc == []
      ensures r.Rejected? <==> doc != [] && !ValidDocument(doc)
      ensures r.Rejected? ==> Explains(r.why, doc)
      ensures r.NameTaken? <==> doc != [] && ValidDocument(doc) && NameExists(old(workflows), tenant, name, {})
      ensures r.Stored? ==> forall other :: other in old(workflows) && old(workflows)[other].tenant == tenant ==>
        old(workflows)[other].name != name
      ensures r.NameTaken? ==> exists other ::
        other in old(workflows) && old(workflows)[other].tenant == tenant && old(workflows)[other].name == name
      ensures !r.NotFound?
    {
      if doc == [] {
        return NoTasks;
      }
      var verdict := D.Validate(doc);
      if !verdict.Valid? {
        return Rejected(verdict);
      }
      if NameExists(workflows, tenant, name, {}) {
        return NameTaken;
      }
      hide ValidDocument;
      var id := nextId;
      workflows := workflows[id := Workflow(tenant, name, 1, false, doc, [doc])];
      nextId := nextId + 1;
      return Stored(id);
    }

    /** A new revision; tasks that are not given are taken from the latest one. */
    method UpdateWorkflow(tenant: Q.TenantId, id: Q.WorkflowId, name: Q.Option<Label>, tasks: Q.Option<Document>)
      returns (r: Answer)
      requires Valid()
      modifies this
      ensures Valid()
      ensures r.NoTasks? <==> tasks == Q.Some([])
      ensures r.NotFound? <==> (!r.NoTasks?
        && (id !in old(workflows) || old(workflows)[id].tenant != tenant || old(workflows)[id].archived))
      ensures r.Rejected? <==> (!r.NoTasks? && !r.NotFound? && tasks.Some? && !ValidDocument(tasks.value))
      ensures r.Rejected? ==> Explains(r.why, tasks.value)
      ensures r.Stored? ==> r.id == id && id in old(workflows)
      ensures r.Stored? ==> workflows == old(workflows)[id := Revised(old(workflows)[id], name, tasks)]
      ensures r.Stored? ==> RevisedBy(old(workflows)[id], workflows[id], name, tasks)
      ensures !r.Stored? ==> workflows == old(workflows)
      ensures r.NameTaken? <==> (!r.NoTasks? && !r.NotFound? && !r.Rejected? && name.Some?
        && name.value != old(workflows)[id].name && NameExists(old(workflows), tenant, name.value, {id}))
      ensures r.Stored? && name.Some? && name.value != old(workflows)[id].name ==> forall other ::
        other in old(workflows) && old(workflows)[other].tenant == tenant ==> old(workflows)[other].name != name.value
      ensures r.NameTaken? ==> exists other ::
        other in old(workflows) && old(workflows)[other].tenant == tenant && old(workflows)[other].name == name.value
    {
      if tasks == Q.Some([]) {
        return NoTasks;
      }
      if id !in workflows || workflows[id].tenant != tenant || workflows[id].archived {
        return NotFound;
      }
      var w := workflows[id];
      var newName := if name.Some? then name.value else w.name;
      var doc := w.revisions[|w.revisions| - 1];
      if tasks.Some? {
        var verdict := D.Validate(tasks.value);
        if !verdict.Valid? {
          return Rejected(verdict);
        }
        doc := tasks.value;
      }
      hide ValidDocument;
      if newName != w.name && NameExists(workflows, tenant, newName, {id}) {
        return NameTaken;
      }
      var revised := w.(name := newName, currentRevision := w.currentRevision + 1, definitions := doc,
                        revisions := w.revisions + [doc]);
      StillApart(workflows, id, revised);
      workflows := workflows[id := revised];
      return Stored(id);
    }

    method ArchiveWorkflow(tenant: Q.TenantId, id: Q.WorkflowId) returns (r: Answer)
      requires Valid()
      modifies this
      ensures Valid()
      ensures r == if id in old(workflows) && old(workflows)[id].tenant == tenant then Stored(id) else NotFound
      ensures workflows == if r.Stored? then old(workflows)[id := old(workflows)[id].(archived := true)]
        else old(workflows)
    {
      if id !in workflows || workflows[id].tenant != tenant {
        return NotFound;
      }
      workflows := workflows[id := workflows[id].(archived := true)];
      return Stored(id);
    }

    /** A new workflow from the latest revision. */
    method CloneWorkflow(tenant: Q.TenantId, id: Q.WorkflowId, name: Label) returns (r: Answer)
      requires Valid()
      modifies this
      ensures Valid()
      ensures r.NotFound? <==> id !in old(workflows) || old(workflows)[id].tenant != tenant
      ensures r.Stored? ==> r.id !in old(workflows) && id in old(workflows) && old(workflows)[id].tenant == tenant
      ensures r.Stored? ==> workflows == old(workflows)[r.id := Workflow(tenant, name, 1, false,
        old(workflows)[id].definitions, [old(workflows)[id].definitions])]
      ensures !r.Stored? ==> workflows == old(workflows)
      ensures !r.Rejected? && !r.NoTasks?
      ensures r.NameTaken? <==> !r.NotFound? && NameExists(old(workflows), tenant, name, {})
      ensures r.Stored? ==> forall other :: other in old(workflows) && old(workflows)[other].tenant == tenant ==>
        old(workflows)[other].name != name
      ensures r.NameTaken? ==> exists other ::
        other in old(workflows) && old(workflows)[other].tenant == tenant && old(workflows)[other].name == name
    {
      if id !in workflows || workflows[id].tenant != tenant {
        return NotFound;
      }
      var w := workflows[id];
      assert RowOk(w);
      r := CreateWorkflow(tenant, name, w.revisions[|w.revisions| - 1]);
    }
  }

  /** An update takes the given name and tasks, keeps what is not given, and appends one revision. */
  predicate RevisedBy(w: Workflow, w': Workflow, name: Q.Option<Label>, tasks: Q.Option<Document>) {
    && (name.Some? ==> w'.name == name.value) && (name.None? ==> w'.name == w.name)
    && (tasks.Some? ==> w'.definitions == tasks.value) && (tasks.None? ==> w'.definitions == w.definitions)
    && w'.revisions == w.revisions + [w'.definitions] && w'.currentRevision == w.currentRevision + 1
    && w'.tenant == w.tenant && w'.archived == w.archived
  }

  /** A workflow after an update. */
  function Revised(w: Workflow, name: Q.Option<Label>, tasks: Q.Option<Document>): Workflow {
    var doc := if tasks.Some? then tasks.value else w.definitions;
    w.(name := if name.Some? then name.value else w.name, currentRevision := w.currentRevision + 1, definitions := doc,
       revisions := w.revisions + [doc])
  }

  lemma StillApart(ws: Workflows, id: Q.WorkflowId, w: Workflow)
    requires NamesApart(ws) && id in ws && w.tenant == ws[id].tenant
      && (w.name == ws[id].name || !NameExists(ws, w.tenant, w.name, {id}))
    ensures NamesApart(ws[id := w])
  {
  }

  // ---- what executions start from ----

  /** Every stored document gives the engine exactly the rows its invariants start from. */
  lemma StoredMeansFresh(w: Workflow, i: nat, id: Q.ExecutionId, workflow: Q.WorkflowId)
    requires RowOk(w) && i < |w.revisions|
    ensures var ex := InitialRows(id, w.tenant, workflow, w.revisions[i]);
      Rows(ex) && Fresh(ex) && CreatedAs(ex, id, w.tenant, workflow, w.revisions[i])
  {
    var doc := w.revisions[i];
    var ex := InitialRows(id, w.tenant, workflow, doc);
    GraphKeys(doc);
    KnownGraph(doc);
    OrderDistinct(doc, ex.order);
    InitialRowsEffect(id, w.tenant, workflow, doc);
    hide Acyclic, Known, KnownDependencies, RowOf;
  }

  lemma OrderDistinct(doc: Document, order: seq<Name>)
    requires UniqueNames(doc) && |order| == |doc| && forall i :: 0 <= i < |doc| ==> order[i] == doc[i].name
    ensures Distinct(order)
  {
  }

  /** In every state of every run, and for every task, the engine's missing-dependency branch is dead code. */
  lemma NoDependencyIsMissing(c: Settings, ex: Execution, t0: Q.Time, states: seq<Sys>, steps: seq<Step>, i: nat,
                              n: Name)
    requires IsRun(c, ex, t0, states, steps) && i < |states| && n in states[i].db.ex.graph
    ensures !Missing(states[i].db.ex.graph, states[i].db.ex.state, n)
  {
    RunCore(c, ex, t0, states, steps, i);
    hide IsRun, JobsOk, RunsOk, LettersOk, Worked, DepsDone, OneOwner, CaredFor, Acyclic, Distinct;
  }
}
