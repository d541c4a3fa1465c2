/**
 * Host-based authorisation: users are known by hostname and belong to a
 * group; each group has a rank, and a lower rank is more privileged. A
 * user may do what a group requires when the required group's rank is at
 * least the rank of the user's own group.
 */
module Auth {
  import opened Text

  /** The group ranks and the hostname-to-group table the bot was
      configured with; neither is changed after construction. */
  datatype Authentication = Authentication(groups: map<string, int>, users: map<string, string>)

  /** `is_allowed(hostname, group)`: hostname and required group are
      compared in lower case; an unknown user, an unknown required group or
      a user whose own group has no rank is refused. */
  function IsAllowed(a: Authentication, hostname: string, group: string): (r: bool)
    ensures Lower(hostname) !in a.users ==> !r
    ensures Lower(group) !in a.groups ==> !r
    ensures Lower(hostname) in a.users && a.users[Lower(hostname)] !in a.groups ==> !r
    ensures r <==> Lower(hostname) in a.users && Lower(group) in a.groups && a.users[Lower(hostname)] in a.groups &&
                   a.groups[Lower(group)] >= a.groups[a.users[Lower(hostname)]]
  {
    var host := Lower(hostname);
    var required := Lower(group);
    if host !in a.users then false
    else if required !in a.groups then false
    else if a.users[host] !in a.groups then false
    else
      var userRank := a.groups[a.users[host]];
      a.groups[required] >= userRank
  }

  /** A user allowed what one group requires is allowed what any known
      group of no better rank requires. */
  lemma AllowedMonotone(a: Authentication, hostname: string, g: string, g': string)
    requires IsAllowed(a, hostname, g)
    requires Lower(g') in a.groups && a.groups[Lower(g')] >= a.groups[Lower(g)]
    ensures IsAllowed(a, hostname, g')
  {
  }

  /** Every member of a group is allowed what that group requires. */
  lemma MemberAllowed(a: Authentication, hostname: string, group: string)
    requires Lower(hostname) in a.users && a.users[Lower(hostname)] == Lower(group) && Lower(group) in a.groups
    ensures IsAllowed(a, hostname, group)
  {
  }

  /** Lookups ignore the case of the hostname and of the group. */
  lemma AllowedIgnoresCase(a: Authentication, hostname: string, group: string)
    ensures IsAllowed(a, hostname, group) == IsAllowed(a, Lower(hostname), Lower(group))
  {
    LowerIdempotent(hostname);
    LowerIdempotent(group);
  }
}
