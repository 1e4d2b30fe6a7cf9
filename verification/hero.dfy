/**
 * The rotating role line under the hero heading: an index into a fixed
 * list of eleven role titles, advanced by a repeating timer and stopped
 * when the component is torn down.
 */
module Hero {

  /** The role titles, in display order. */
  const Roles: seq<string> := [
    "Full Stack Developer",
    "React.js Specialist",
    "Laravel PHP Developer",
    "REST API Creator",
    "Frontend & Backend Integrator",
    "Database Design Expert",
    "Responsive Web Developer",
    "State Management Pro (Redux/Context)",
    "Performance Optimization Advocate",
    "Component-Driven Developer",
    "Cross-Browser Compatibility Expert"
  ]

  /** One timer tick: the next index, wrapping from the last role to the first. */
  function NextRole(prev: nat): (r: nat)
    requires prev < |Roles|
    ensures r < |Roles|
    ensures r == if prev == |Roles| - 1 then 0 else prev + 1
  {
    (prev + 1) % |Roles|
  }

  /** The index after k ticks from mount. */
  function RoleAfter(k: nat): (r: nat)
    ensures r < |Roles|
  {
    if k == 0 then 0 else NextRole(RoleAfter(k - 1))
  }

  /** Closed form of the rotation: after k ticks the index is k mod 11. */
  lemma {:induction false} RoleAfterClosedForm(k: nat)
    ensures RoleAfter(k) == k % |Roles|
  {
    if k > 0 {
      RoleAfterClosedForm(k - 1);
    }
  }

  /** Rotation is periodic: eleven more ticks show the same role. */
  lemma {:induction false} RoleAfterPeriodic(k: nat)
    ensures RoleAfter(k + |Roles|) == RoleAfter(k)
  {
    RoleAfterClosedForm(k);
    RoleAfterClosedForm(k + |Roles|);
  }

  /** The mounted rotator: the `currentRole` state and its interval. */
  class RoleRotator {
    var currentRole: nat
    var intervalActive: bool
    /** Ticks delivered since mount. */
    ghost var ticks: nat

    ghost predicate Valid()
      reads this
    {
      currentRole == RoleAfter(ticks)
    }

    /** Mount: the index starts at 0 and the interval is started. */
    constructor ()
      ensures Valid()
      ensures currentRole == 0 && ticks == 0 && intervalActive
    {
      currentRole, intervalActive, ticks := 0, true, 0;
    }

    /** The title on display, which always exists. */
    function Displayed(): (r: string)
      reads this
      requires Valid()
      ensures r in Roles
    {
      Roles[currentRole]
    }

    /** A timer tick; after teardown it changes nothing. */
    method Tick()
      requires Valid()
      modifies this
      ensures Valid()
      ensures intervalActive == old(intervalActive)
      ensures old(intervalActive) ==> currentRole == NextRole(old(currentRole)) && ticks == old(ticks) + 1
      ensures !old(intervalActive) ==> currentRole == old(currentRole) && ticks == old(ticks)
      ensures currentRole < |Roles| && currentRole == ticks % |Roles|
    {
      if intervalActive {
        currentRole := NextRole(currentRole);
        ticks := ticks + 1;
      }
      RoleAfterClosedForm(ticks);
    }

    /** Unmount: the interval is cleared. */
    method Teardown()
      requires Valid()
      modifies this
      ensures Valid()
      ensures !intervalActive
      ensures currentRole == old(currentRole) && ticks == old(ticks)
    {
      intervalActive := false;
    }
  }
}
