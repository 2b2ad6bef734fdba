/** The work item the intake handler enqueues and the importer dequeues
    (lambda/shared/types.go). */
module SharedTypes {
  import opened Wrappers
  import opened Text

  /** The pull request to import, as named by its link. */
  datatype ImportPullRequest = ImportPullRequest(repo: string, owner: string, id: string)

  /** One import request. An empty `jiraTicket` means "no ticket yet". */
  datatype ImportMessage = ImportMessage(
    repository: ImportPullRequest,
    team: string,
    jiraTicket: string,
    slackUser: string
  )

  /** "owner/repo", the key of the repository mapping table. */
  function FullName(p: ImportPullRequest): (r: string)
    ensures |r| == |p.owner| + |p.repo| + 1
    ensures HasPrefix(r, p.owner) && r[|p.owner|] == '/'
    ensures r[|p.owner| + 1..] == p.repo
  {
    p.owner + "/" + p.repo
  }

  /** Splits "owner/repo" at its first '/'; the reading of a full name back
      into its two parts. */
  function SplitFullName(s: string): (r: Option<(string, string)>)
    ensures r.Some? <==> '/' in s
    ensures r.Some? ==> s == r.value.0 + "/" + r.value.1 && '/' !in r.value.0
  {
    match IndexOf(s, "/")
    case None =>
      assert forall i :: 0 <= i < |s| ==> s[i] != '/' by {
        forall i | 0 <= i < |s| ensures s[i] != '/' {
          assert !OccursAt(s, "/", i);
          assert s[i..i + 1] == [s[i]];
        }
      }
      None
    case Some(i) =>
      assert s[i..i + 1] == "/";
      assert forall j :: 0 <= j < i ==> s[j] != '/' by {
        forall j | 0 <= j < i ensures s[j] != '/' {
          assert !OccursAt(s, "/", j);
          assert s[j..j + 1] == [s[j]];
        }
      }
      assert s == s[..i] + "/" + s[i + 1..];
      Some((s[..i], s[i + 1..]))
  }

  /** The full name loses nothing as long as the owner holds no '/'. */
  lemma SplitFullNameInverse(p: ImportPullRequest)
    requires '/' !in p.owner
    ensures SplitFullName(FullName(p)) == Some((p.owner, p.repo))
  {
    var s := FullName(p);
    var r := SplitFullName(s);
    assert s[|p.owner|] == '/';
    assert '/' in s;
    var o := r.value.0;
    var rest := r.value.1;
    assert rest == s[|o| + 1..] == p.repo;
  }

  /** The pull request number takes no part in the full name. */
  lemma FullNameIgnoresId(p: ImportPullRequest, id: string)
    ensures FullName(p.(id := id)) == FullName(p)
  {
  }
}
