/** `isSubscriptionActive` (src/index.js:84): `subscription?.status === "active"`. */
module Subscription {
  import opened Wrappers
  import opened Json

  const ActiveStatus: string := "active"

  /** True exactly for a present object payload whose `status` field is the
      string "active": case-sensitive, with no trimming and no other value of
      any type accepted. */
  predicate IsSubscriptionActive(subscription: Option<Value>): (active: bool)
    ensures active <==> (subscription.Some? && subscription.value.Object?
                         && "status" in subscription.value.fields
                         && subscription.value.fields["status"].Str?
                         && subscription.value.fields["status"].s == ActiveStatus)
  {
    match subscription
    case None => false
    case Some(v) => Property(v, "status") == Some(Str(ActiveStatus))
  }

  /** Only the `status` field matters: changing or adding any other field
      never changes the verdict. */
  lemma OnlyStatusMatters(fields: map<string, Value>, key: string, v: Value)
    requires key != "status"
    ensures IsSubscriptionActive(Some(Object(fields[key := v]))) == IsSubscriptionActive(Some(Object(fields)))
  {
  }

  /** The documented cases: `{status: "active"}` is active; `{status: "Active"}`,
      `null`, a missing payload and `{}` are not. */
  lemma ActiveExamples()
    ensures IsSubscriptionActive(Some(Object(map["status" := Str("active")])))
    ensures !IsSubscriptionActive(Some(Object(map["status" := Str("Active")])))
    ensures !IsSubscriptionActive(Some(Null))
    ensures !IsSubscriptionActive(None)
    ensures !IsSubscriptionActive(Some(Object(map[])))
  {
  }
}
