/** Access control: the static admin allowlist and the fail-closed channel
    subscription check. */
module Access {

  /** What `get_chat_member(channel, user)` gave for one channel: the
      member's status, or an exception (unknown channel, bot not in the
      channel, network error, ...). */
  datatype Lookup = Status(status: string) | Failed

  /** The statuses that count as subscribed. */
  predicate Admits(l: Lookup) {
    l.Status? && l.status in {"member", "administrator", "creator"}
  }

  predicate AllAdmit(lookups: seq<Lookup>) {
    forall i | 0 <= i < |lookups| :: Admits(lookups[i])
  }

  /** `is_admin`: the string form of the id is on the allowlist. */
  predicate IsAdmin(admins: set<string>, userId: string) {
    userId in admins
  }

  /** `is_subscribed`, given the lookup outcome for each configured channel
      in order.  The user is subscribed exactly when every channel admits
      them; the channels are asked in order and asking stops at the first
      one that does not admit them or whose lookup fails, so `queried` is
      the number of lookups actually made. */
  method IsSubscribed(lookups: seq<Lookup>) returns (ok: bool, queried: nat)
    ensures ok == AllAdmit(lookups)
    ensures queried <= |lookups|
    ensures ok ==> queried == |lookups|
    ensures !ok ==> 0 < queried && !Admits(lookups[queried - 1]) && AllAdmit(lookups[..queried - 1])
  {
    queried := 0;
    while queried < |lookups|
      invariant queried <= |lookups|
      invariant AllAdmit(lookups[..queried])
    {
      var lookup := lookups[queried];
      queried := queried + 1;
      match lookup {
        case Failed =>
          return false, queried;
        case Status(status) =>
          if status !in {"member", "administrator", "creator"} {
            return false, queried;
          }
      }
      assert lookups[..queried] == lookups[..queried - 1] + [lookup];
    }
    assert lookups[..queried] == lookups;
    return true, queried;
  }
}
