/** The two lookup objects the dashboard builds once per snapshot:
    list id to list name and member id to display name. Both are filled by a
    loop that assigns `m[id] = ...`, so a repeated id takes the value of its
    last occurrence. */
module Names {
  import opened Board

  /** The name shown for a member: full name, else user name, else
      initials, else the id. */
  function DisplayName(mem: Member): (r: string)
    ensures r in {mem.fullName, mem.username, mem.initials, mem.id}
    ensures r == "" <==> mem.fullName == mem.username == mem.initials == mem.id == ""
    ensures r == mem.fullName
            || (mem.fullName == "" && (r == mem.username
            || (mem.username == "" && (r == mem.initials
            || (mem.initials == "" && r == mem.id)))))
  {
    if mem.fullName != "" then mem.fullName
    else if mem.username != "" then mem.username
    else if mem.initials != "" then mem.initials
    else mem.id
  }

  /** `listNameById`. */
  method ListNameById(lists: seq<BoardList>) returns (m: map<string, string>)
    ensures forall k :: k in m <==> exists i :: 0 <= i < |lists| && lists[i].id == k
    ensures forall i :: 0 <= i < |lists| && (forall j :: i < j < |lists| ==> lists[j].id != lists[i].id)
                        ==> m[lists[i].id] == lists[i].name
  {
    m := map[];
    for n := 0 to |lists|
      invariant forall k :: k in m <==> exists i :: 0 <= i < n && lists[i].id == k
      invariant forall i :: 0 <= i < n && (forall j :: i < j < n ==> lists[j].id != lists[i].id)
                            ==> m[lists[i].id] == lists[i].name
    {
      m := m[lists[n].id := lists[n].name];
    }
  }

  /** `memberNameById`. */
  method MemberNameById(members: seq<Member>) returns (m: map<string, string>)
    ensures forall k :: k in m <==> exists i :: 0 <= i < |members| && members[i].id == k
    ensures forall i :: 0 <= i < |members| && (forall j :: i < j < |members| ==> members[j].id != members[i].id)
                        ==> m[members[i].id] == DisplayName(members[i])
  {
    m := map[];
    for n := 0 to |members|
      invariant forall k :: k in m <==> exists i :: 0 <= i < n && members[i].id == k
      invariant forall i :: 0 <= i < n && (forall j :: i < j < n ==> members[j].id != members[i].id)
                            ==> m[members[i].id] == DisplayName(members[i])
    {
      m := m[members[n].id := DisplayName(members[n])];
    }
  }
}
