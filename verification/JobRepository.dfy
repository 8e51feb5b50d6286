/**
 A repository on a job file. Several repositories, in several processes, may share the file: each
 operation locks it, reads it anew, and only then decides and writes. What each replies, and what it
 makes of the file, depends on the file and on what fails, and not on what the repository remembered.
 */
module JobRepositories {
  import opened AnyOrder
  import opened AtomicFile
  import opened JobStore
  import opened Options

  const PRIVATE := 0x180 // 0600

  class JobRepository {
    const dir: Directory<Content>
    const path: string
    const owner: Owner
    var next: int
    var jobs: map<int, Job>

    constructor (dir: Directory<Content>, path: string, owner: Owner)
      ensures this.dir == dir && this.path == path && this.owner == owner && next == 1 && jobs == map[]
    {
      this.dir, this.path, this.owner := dir, path, owner;
      next, jobs := 1, map[];
    }

    /** The store that the file amounts to now. */
    ghost function Shared(): Loaded
      reads this, dir
    {
      Load(dir.Lookup(path))
    }

    ghost function Memory(): Store
      reads this
    {
      Store(next, jobs)
    }

    // ---------- Loading ----------

    /** Takes in a file's jobs; on a bad one it stops, remembering only those before it. */
    method ReplaceLocked(n: int, list: seq<Job>) returns (ok: bool)
      modifies `next, `jobs
      ensures ok <==> Replacement(n, list).Good?
      ensures ok ==> Replacement(n, list) == Good(Memory())
      ensures n < 1 ==> Memory() == old(Memory())
      ensures !ok && n >= 1 ==> exists k :: 0 <= k < |list| && Absorb(n, list[..k]) == Good(Memory())
    {
      if n < 1 {
        return false;
      }
      jobs, next := map[], n;
      for k := 0 to |list|
        invariant Absorb(n, list[..k]) == Good(Memory())
      {
        var job := list[k];
        assert list[..k + 1][..k] == list[..k];
        if job.id < 1 || job.schemaVersion != 2 || job.id in jobs {
          AbsorbStuck(n, list, k + 1);
          return false;
        }
        if job.id >= next {
          next := job.id + 1;
        }
        jobs := jobs[job.id := job];
      }
      assert list[..|list|] == list;
      ok := true;
    }

    method SortedById(jobs: map<int, Job>) returns (list: seq<Job>)
      ensures list == Listing(jobs)
    {
      list := [];
      var left := jobs;
      while left != map[]
        invariant list + Listing(left) == Listing(jobs)
        decreases |left.Keys|
      {
        var id := LeastId(left.Keys);
        ListingFirst(left, id);
        assert list + ([left[id]] + Listing(left - {id})) == list + [left[id]] + Listing(left - {id});
        assert (left - {id}).Keys == left.Keys - {id};
        list, left := list + [left[id]], left - {id};
      }
    }

    method LeastId(ids: set<int>) returns (least: int)
      requires ids != {}
      ensures IsLeast(ids, least)
    {
      var left;
      least, left := Take(ids);
      while left != {}
        invariant least in ids && left <= ids
        invariant forall id | id in ids && id !in left :: least <= id
        decreases |left|
      {
        var id, rest := Take(left);
        least, left := if id < least then id else least, rest;
      }
    }

    /** Writes the candidate store; a failure may come after the file was replaced. */
    method PersistCandidateLocked(candidateNext: int, candidate: map<int, Job>, fault: Fault) returns (ok: bool)
      requires ValidStore(Store(candidateNext, candidate))
      modifies dir
      ensures ok <==> fault == NoFault
      ensures Shared() == if Replaces(fault) then Good(Store(candidateNext, candidate)) else old(Shared())
      ensures dir.Lookup(path) == if Replaces(fault) then Some(File(Persisted(Store(candidateNext, candidate)), PRIVATE, owner))
                                  else old(dir.Lookup(path))
      ensures forall other | other in old(dir.files) && other != path :: other in dir.files && dir.files[other] == old(dir.files)[other]
    {
      var list := SortedById(candidate);
      LoadPersisted(Store(candidateNext, candidate), PRIVATE, owner);
      ghost var temporary;
      ok, temporary := dir.AtomicWrite(path, Versioned(2, candidateNext, list), PRIVATE, owner, fault);
      forall other | other in old(dir.files) && other != path ensures other in dir.files && dir.files[other] == old(dir.files)[other] {
        assert other in old(dir.files) - {path};
      }
    }

    /** The first version's jobs, converted, remembered and written, after the file has been backed up as it was. */
    method MigrateLegacyLocked(text: File<Content>, stamp: string, backupFault: Fault, fault: Fault) returns (ok: bool)
      requires text.data.Legacy? && dir.Lookup(path) == Some(text)
      modifies this`next, this`jobs, dir
      ensures Shared() == old(Shared())
      ensures ok <==> Shared().Good? && backupFault == NoFault && fault == NoFault
      ensures ok ==> Shared() == Good(Memory()) && ValidStore(Memory())
      ensures dir.Lookup(path) != old(dir.Lookup(path)) ==>
                dir.Lookup(path + ".v1." + stamp + ".bak") == Some(File(text.data, PRIVATE, owner))
    {
      if text.data.legacyNext < 1 {
        return false;
      }
      var list: seq<Job> := [];
      for k := 0 to |text.data.legacyJobs|
        invariant list == MigratedAll(text.data.legacyJobs[..k])
      {
        list := list + [Migrated(text.data.legacyJobs[k])];
      }
      assert text.data.legacyJobs[..|text.data.legacyJobs|] == text.data.legacyJobs;
      ok := ReplaceLocked(text.data.legacyNext, list);
      if !ok {
        return;
      }
      LoadValid(Some(text));
      var backup := path + ".v1." + stamp + ".bak";
      ghost var temporary;
      ok, temporary := dir.AtomicWrite(backup, text.data, PRIVATE, owner, backupFault);
      assert path in old(dir.files) - {backup};
      if !ok {
        return;
      }
      ok := PersistCandidateLocked(next, jobs, fault);
    }

    /** Reads the file anew, migrating one of the first version. */
    method LoadLocked(stamp: string, f: Faults) returns (ok: bool)
      modifies this`next, this`jobs, dir
      ensures Shared() == old(Shared())
      ensures ok <==> CanLoad(old(dir.Lookup(path)), f)
      ensures ok ==> Shared() == Good(Memory()) && ValidStore(Memory())
    {
      if path !in dir.files {
        next, jobs := 1, map[];
        return true;
      }
      if f.unreadable {
        return false;
      }
      var file := dir.files[path];
      if file.data.Garbage? {
        return false;
      }
      if file.data.Legacy? {
        ok := MigrateLegacyLocked(file, stamp, f.backup, f.migration);
        return;
      }
      if file.data.schemaVersion != 2 {
        return false;
      }
      ok := ReplaceLocked(file.data.next, file.data.jobs);
      if ok {
        LoadValid(Some(file));
      }
    }

    // ---------- Operations ----------

    method Create(body: Body, stamp: string, f: Faults) returns (reply: Reply)
      modifies this`next, this`jobs, dir
      ensures reply == Answer(old(dir.Lookup(path)), Op.Create(body), f)
      ensures Shared() == After(old(dir.Lookup(path)), Op.Create(body), f)
      ensures Outcome(old(Shared()), Op.Create(body), Shared(), reply)
      ensures reply.Unusable? <==> !CanLoad(old(dir.Lookup(path)), f)
      ensures f.write == NoFault ==> !reply.NotWritten?
      ensures reply.Done? ==> Shared() == Good(Memory())
    {
      OutcomeOf(dir.Lookup(path), Op.Create(body), f);
      var ok := LoadLocked(stamp, f);
      if !ok {
        return Unusable;
      }
      var created := Job(2, next, 1, body);
      EffectValid(Memory(), Op.Create(body));
      ok := PersistCandidateLocked(next + 1, jobs[created.id := created], f.write);
      if !ok {
        return NotWritten;
      }
      next, jobs := next + 1, jobs[created.id := created];
      reply := Done(created);
    }

    method Update(id: int, revision: nat, body: Body, stamp: string, f: Faults) returns (reply: Reply)
      modifies this`next, this`jobs, dir
      ensures reply == Answer(old(dir.Lookup(path)), Op.Update(id, revision, body), f)
      ensures Shared() == After(old(dir.Lookup(path)), Op.Update(id, revision, body), f)
      ensures Outcome(old(Shared()), Op.Update(id, revision, body), Shared(), reply)
      ensures reply.Unusable? <==> !CanLoad(old(dir.Lookup(path)), f)
      ensures f.write == NoFault ==> !reply.NotWritten?
      ensures reply.Done? ==> Shared() == Good(Memory())
    {
      OutcomeOf(dir.Lookup(path), Op.Update(id, revision, body), f);
      var ok := LoadLocked(stamp, f);
      if !ok {
        return Unusable;
      }
      if id !in jobs {
        return NotFound;
      }
      var current := jobs[id];
      if current.revision != revision {
        return Conflict;
      }
      var updated := Job(2, id, current.revision + 1, body);
      EffectValid(Memory(), Op.Update(id, revision, body));
      ok := PersistCandidateLocked(next, jobs[updated.id := updated], f.write);
      if !ok {
        return NotWritten;
      }
      jobs := jobs[id := updated];
      reply := Done(updated);
    }

    method Delete(id: int, revision: nat, stamp: string, f: Faults) returns (reply: Reply)
      modifies this`next, this`jobs, dir
      ensures reply == Answer(old(dir.Lookup(path)), Op.Delete(id, revision), f)
      ensures Shared() == After(old(dir.Lookup(path)), Op.Delete(id, revision), f)
      ensures Outcome(old(Shared()), Op.Delete(id, revision), Shared(), reply)
      ensures reply.Unusable? <==> !CanLoad(old(dir.Lookup(path)), f)
      ensures f.write == NoFault ==> !reply.NotWritten?
      ensures reply.Deleted? ==> Shared() == Good(Memory())
    {
      OutcomeOf(dir.Lookup(path), Op.Delete(id, revision), f);
      var ok := LoadLocked(stamp, f);
      if !ok {
        return Unusable;
      }
      if id !in jobs {
        return NotFound;
      }
      var current := jobs[id];
      if current.revision != revision {
        return Conflict;
      }
      EffectValid(Memory(), Op.Delete(id, revision));
      ok := PersistCandidateLocked(next, jobs - {id}, f.write);
      if !ok {
        return NotWritten;
      }
      jobs := jobs - {id};
      reply := Deleted;
    }

    /** What the repository remembers, in the order of ids. */
    method List() returns (list: seq<Job>)
      ensures list == Listing(jobs)
    {
      list := SortedById(jobs);
    }
  }
}
