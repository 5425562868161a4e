/** What renaming and deleting a project keep, and when a rename can be taken back. */
module Projects {
  import opened Wrappers
  import opened Schema

  /** A new project is refused exactly when its name is taken; otherwise it is added, without a webhook. */
  lemma CreateIsExact(t: Tables, name: string, token: string)
    ensures var r := CreateProject(t, name, token);
            && (r.Success? <==> name !in t.projects)
            && (r.Failure? ==> r.error == UniqueViolation)
            && (r.Success? ==> r.value == t.(projects := t.projects + map[name := Project(token, None)]))
  {
    assert t.projects + map[name := Project(token, None)] == t.projects[name := Project(token, None)];
  }

  predicate MayRename(t: Tables, source: string, target: string) {
    && source in t.projects
    && (source == target || (target !in t.projects && !RenameClash(t, source, target)))
  }

  /**
   A rename succeeds exactly when the source is registered and, unless the name
   stays the same, the target is neither registered nor holds an issue with a
   fingerprint the source also has. Ids, counts, statuses, events and the token
   all stay.
   */
  lemma RenamePreserves(t: Tables, source: string, target: string)
    ensures var r := RenameProject(t, source, target);
            && (r.Success? <==> MayRename(t, source, target))
            && (r.Success? ==>
                  && r.value.issues.Keys == t.issues.Keys
                  && (forall i :: i in t.issues ==>
                        r.value.issues[i] == t.issues[i].(project := r.value.issues[i].project))
                  && IssuesOf(r.value, target) == IssuesOf(t, source) + IssuesOf(t, target)
                  && (source != target ==> IssuesOf(r.value, source) == {} && source !in r.value.projects)
                  && (forall p :: p != source && p != target ==> IssuesOf(r.value, p) == IssuesOf(t, p))
                  && r.value.events == t.events
                  && target in r.value.projects && r.value.projects[target] == t.projects[source]
                  && (forall p :: p != source && p != target ==>
                        (p in r.value.projects <==> p in t.projects)
                        && (p in t.projects ==> r.value.projects[p] == t.projects[p])))
  {
    if MayRename(t, source, target) && source != target {
      RenamedRows(t, source, target, RenameProject(t, source, target).value);
    }
  }

  lemma RenamedRows(t: Tables, source: string, target: string, u: Tables)
    requires source != target && u.issues == RenameIssues(t, source, target)
    ensures u.issues.Keys == t.issues.Keys
    ensures forall i :: i in t.issues ==> u.issues[i] == t.issues[i].(project := u.issues[i].project)
    ensures IssuesOf(u, target) == IssuesOf(t, source) + IssuesOf(t, target) && IssuesOf(u, source) == {}
    ensures forall p :: p != source && p != target ==> IssuesOf(u, p) == IssuesOf(t, p)
  {
  }

  lemma RenamedBack(t: Tables, source: string, target: string, u: Tables)
    requires source != target && RenameProject(t, source, target) == Success(u)
    ensures RenameProject(u, target, source).Success?
    ensures var back := RenameProject(u, target, source).value;
            && back.projects == t.projects
            && back.issues.Keys == t.issues.Keys
            && (forall i :: i in t.issues ==>
                  back.issues[i] == if t.issues[i].project == target then t.issues[i].(project := source) else t.issues[i])
  {
    assert IssuesOf(u, source) == {};
    var back := RenameProject(u, target, source).value;
    assert back.projects == t.projects;
  }

  /** Renaming back undoes a rename exactly when the target held no issues of its own. */
  lemma RenameRoundTrip(t: Tables, source: string, target: string)
    requires RenameProject(t, source, target).Success?
    ensures RenameProject(RenameProject(t, source, target).value, target, source) == Success(t)
            <==> source == target || IssuesOf(t, target) == {}
  {
    if source != target {
      var u := RenameProject(t, source, target).value;
      RenamedBack(t, source, target, u);
      var back := RenameProject(u, target, source).value;
      if IssuesOf(t, target) == {} {
        assert forall i :: i in t.issues ==> i !in IssuesOf(t, target);
        assert back.issues == t.issues;
        assert back == t;
      } else {
        var i :| i in IssuesOf(t, target);
        assert back.issues[i] != t.issues[i];
      }
    }
  }

  /** Deleting a project removes exactly its issues, exactly their events, and its own row. */
  lemma DeleteIsExact(t: Tables, name: string)
    requires forall e :: e in t.events ==> t.events[e].issueId in t.issues
    ensures var r := DeleteProject(t, name);
            && (r.Success? <==> name in t.projects)
            && (r.Success? ==>
                  && r.value.projects == t.projects - {name}
                  && r.value.issues.Keys == t.issues.Keys - IssuesOf(t, name)
                  && (forall i :: i in r.value.issues ==> r.value.issues[i] == t.issues[i])
                  && (forall e :: e in t.events ==>
                        (e in r.value.events <==> t.issues[t.events[e].issueId].project != name))
                  && (forall e :: e in r.value.events ==> e in t.events && r.value.events[e] == t.events[e]))
  {
  }
}
