/** Matching a user's group memberships against the configured allow-list. */
module Groups {
  import opened Wire

  /** Some membership name equals some allowed name, as an exact string comparison. */
  function Member(memberships: seq<GroupInfo>, allow: seq<string>): (r: bool)
    ensures memberships == [] || allow == [] ==> !r
    ensures r ==> exists g :: g in allow && GroupInfo(g) in memberships
  {
    exists i, j :: 0 <= i < |memberships| && 0 <= j < |allow| && memberships[i].name == allow[j]
  }

  function Names(memberships: seq<GroupInfo>): set<string> {
    set m | m in memberships :: m.name
  }

  /** The match is the intersection of two sets: it depends neither on order nor on repetition. */
  lemma MemberIffSharedName(memberships: seq<GroupInfo>, allow: seq<string>)
    ensures Member(memberships, allow) <==> Names(memberships) * Elements(allow) != {}
  {
    if Names(memberships) * Elements(allow) != {} {
      var g :| g in Names(memberships) * Elements(allow);
      var m :| m in memberships && m.name == g;
      var i :| 0 <= i < |memberships| && memberships[i] == m;
      var j :| 0 <= j < |allow| && allow[j] == g;
      assert memberships[i].name == allow[j];
    }
    if Member(memberships, allow) {
      var i, j :| 0 <= i < |memberships| && 0 <= j < |allow| && memberships[i].name == allow[j];
      assert allow[j] in Names(memberships) * Elements(allow);
    }
  }

  function Elements(s: seq<string>): set<string> {
    set x | x in s
  }

  /** Reordering either list leaves the answer as it was. */
  lemma MemberIgnoresOrder(memberships: seq<GroupInfo>, memberships': seq<GroupInfo>,
                           allow: seq<string>, allow': seq<string>)
    requires multiset(memberships) == multiset(memberships')
    requires multiset(allow) == multiset(allow')
    ensures Member(memberships, allow) == Member(memberships', allow')
  {
    forall m ensures m in memberships <==> m in memberships' {
      assert m in memberships <==> m in multiset(memberships);
      assert m in memberships' <==> m in multiset(memberships');
    }
    forall g ensures g in allow <==> g in allow' {
      assert g in allow <==> g in multiset(allow);
      assert g in allow' <==> g in multiset(allow');
    }
    assert Names(memberships) == Names(memberships');
    assert Elements(allow) == Elements(allow');
    MemberIffSharedName(memberships, allow);
    MemberIffSharedName(memberships', allow');
  }

  /** Memberships ["eng", "ops"] match allow-list ["ops"]; ["eng"] does not, nor does "Ops". */
  lemma MemberExamples()
    ensures Member([GroupInfo("eng"), GroupInfo("ops")], ["ops"])
    ensures !Member([GroupInfo("eng")], ["ops"])
    ensures !Member([GroupInfo("Ops")], ["ops"])
  {
    var ms := [GroupInfo("eng"), GroupInfo("ops")];
    assert ms[1].name == ["ops"][0];
  }
}
