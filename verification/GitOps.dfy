/** Worktrees, reduced to the head, the cleanliness and the marker of the last message. */
module GitOps {
  import opened Wrappers
  import opened Graph
  import opened Program

  /** `marked`: the message of the head commit names the job of the worktree. */
  datatype Repo = Repo(baseline: Commit, head: Commit, dirty: bool, marked: bool)

  datatype GitError = NoChanges | NoWorktree

  /** A commit the controller made earlier for this job and that nothing changed since. */
  predicate Committed(repo: Repo) {
    repo.head != repo.baseline && !repo.dirty && repo.marked
  }

  predicate Committable(repo: Repo, allowEmpty: bool) {
    Committed(repo) || repo.dirty || allowEmpty
  }

  /** `id` is the identifier git gives to a new commit. */
  function CommitIdempotent(repo: Repo, allowEmpty: bool, id: Commit): (r: Result<Repo, GitError>)
  {
    if Committed(repo) then Success(repo)
    else if repo.dirty || allowEmpty then Success(repo.(head := id, dirty := false, marked := true))
    else Failure(NoChanges)
  }

  /** All commits so far have smaller identifiers than the next one. */
  ghost predicate FreshAbove(repos: map<Key, Repo>, next: Commit) {
    forall k :: k in repos ==> repos[k].baseline < next && repos[k].head < next
  }

  class Worktrees {
    var repos: map<Key, Repo>
    var next: Commit

    ghost predicate Valid()
      reads this
    {
      FreshAbove(repos, next)
    }

    constructor (repos: map<Key, Repo>, next: Commit)
      requires FreshAbove(repos, next)
      ensures Valid() && this.repos == repos && this.next == next
    {
      this.repos, this.next := repos, next;
    }

    method MakeCommit(k: Key, allowEmpty: bool) returns (r: Result<Commit, GitError>)
      requires Valid() && k in repos && !Committed(repos[k])
      modifies this
      ensures Valid() && next >= old(next)
      ensures r.Success? <==> Committable(old(repos)[k], allowEmpty)
      ensures r.Success? ==> r.value == old(next)
      ensures r.Success? ==> repos == old(repos)[k := CommitIdempotent(old(repos)[k], allowEmpty, r.value).value]
      ensures r.Success? ==> repos == old(repos)[k := Repo(old(repos)[k].baseline, old(next), false, true)] && next > old(next)
      ensures r.Failure? ==> repos == old(repos)
    {
      if !repos[k].dirty && !allowEmpty {
        return Failure(NoChanges);
      }
      repos := repos[k := repos[k].(head := next, dirty := false, marked := true)];
      next := next + 1;
      return Success(next - 1);
    }

    method CommitIdempotently(k: Key, allowEmpty: bool) returns (r: Result<Commit, GitError>)
      requires Valid() && k in repos
      modifies this
      ensures Valid() && next >= old(next)
      ensures r.Success? <==> Committable(old(repos)[k], allowEmpty)
      ensures r.Success? ==>
                && repos == old(repos)[k := CommitIdempotent(old(repos)[k], allowEmpty, old(next)).value]
                && r.value == repos[k].head && Committed(repos[k])
      ensures r.Success? && Committed(old(repos)[k]) ==> repos == old(repos) && r.value == old(repos)[k].head
      ensures r.Success? && !Committed(old(repos)[k]) ==>
                r.value == old(next) && repos == old(repos)[k := Repo(old(repos)[k].baseline, old(next), false, true)]
      ensures r.Failure? ==> repos == old(repos)
    {
      var repo := repos[k];
      if repo.head != repo.baseline && !repo.dirty && repo.marked {
        assert repos == repos[k := repo];
        return Success(repo.head);
      }
      r := MakeCommit(k, allowEmpty);
    }

    /** A new worktree starts at a baseline of its own, with the prerequisite commits applied. */
    method EnsureWorktree(k: Key)
      requires Valid()
      modifies this
      ensures Valid() && k in repos && next >= old(next)
      ensures repos == if k in old(repos) then old(repos) else old(repos)[k := Repo(old(next), old(next), false, false)]
    {
      if k !in repos {
        repos := repos[k := Repo(next, next, false, false)];
        next := next + 1;
      }
    }

    /** `normalize_worker_commits` keeps the edits and drops the commits made by the worker. */
    method NormalizeWorkerCommits(k: Key, edited: bool)
      requires Valid() && k in repos
      modifies this`repos
      ensures Valid()
      ensures repos == old(repos)[k := Repo(old(repos)[k].baseline, old(repos)[k].baseline, edited, false)]
    {
      repos := repos[k := Repo(repos[k].baseline, repos[k].baseline, edited, false)];
    }
  }
}
