/** The in-memory fixtures the components read (constants.ts). */
module Constants {
  import opened Wrappers
  import opened Types

  const MockUsers: seq<User> := [
    User("u1", "Global Tech Industries", "buyer@ndna.com", Buyer, true, None, Some("Global Tech")),
    User("u2", "Copper Ridge Mining", "seller@ndna.com", Seller, true, None, Some("Copper Ridge")),
    User("u3", "Alex Broker", "broker@ndna.com", Intermediary, true, None, Some("Prime Connect")),
    User("u4", "NDNA Admin", "admin@ndna.com", Admin, true, None, Some("NDNA Platform"))
  ]

  const MockDeals: seq<Deal> := [
    Deal("d1", "m1", "Katanga Copper Belt", "u1", "u2", 45000000, SpaSigned, "Copper", "5000 MT", "2 hours ago"),
    Deal("d2", "m3", "Lithium Valley", "u1", "u5", 12000000, Negotiation, "Lithium", "2000 MT", "1 day ago")
  ]

  const MockNotifications: seq<Notification> := [
    Notification("n1", "Deal Update", "SPA Signed for Deal #D1", NotificationKind.Success, "10:30 AM", false),
    Notification("n2", "Action Required", "Please upload TT Proof for Deal #D1", NotificationKind.Warning, "09:15 AM", false),
    Notification("n3", "Verification", "Mine \"Zambezi Gold\" documents under review", NotificationKind.Info, "Yesterday", true)
  ]

  /** No two mock users share an e-mail address, so a login by e-mail is unambiguous. */
  lemma MockEmailsUnique()
    ensures forall i, j :: 0 <= i < j < |MockUsers| ==> MockUsers[i].email != MockUsers[j].email
  {
  }

  /** The positions of the mock users holding role `r`. */
  ghost function HoldersOf(r: UserRole): set<int>
  {
    set i | 0 <= i < |MockUsers| && MockUsers[i].role == r
  }

  /** Each role is held by exactly one mock user. */
  lemma OneMockUserPerRole()
    ensures forall r: UserRole :: |HoldersOf(r)| == 1
  {
    forall r: UserRole ensures |HoldersOf(r)| == 1 {
      var k := match r case Buyer => 0 case Seller => 1 case Intermediary => 2 case Admin => 3;
      assert HoldersOf(r) == {k};
    }
  }
}
