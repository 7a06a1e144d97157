/** The "Top Audience Accounts" table: a fixed list of mock rows loaded once
    on mount, and the per-row rules (engagement tier, avatar letter, verified
    mark). The component's `instagramData` prop is never read, so the model
    has no such parameter. */
module Audience {
  import opened Text

  /** A table row's data. `engagement` is a percentage; a JavaScript number
      is a rational, so `real` compares with 4.5 and 3.5 exactly. */
  datatype User = User(
    id: string, username: string, followers: nat,
    engagement: real, lastPost: string, verified: bool)

  /** The engagement badge's colour: green, yellow or red. */
  datatype Tier = Green | Yellow | Red

  /** The badge's nested ternary: above 4.5 is green, above 3.5 yellow, the
      rest red; exactly one tier per value. */
  function EngagementTier(engagement: real): (t: Tier)
    ensures t == Green <==> engagement > 4.5
    ensures t == Yellow <==> 3.5 < engagement <= 4.5
    ensures t == Red <==> engagement <= 3.5
  {
    if engagement > 4.5 then Green else if engagement > 3.5 then Yellow else Red
  }

  function TierRank(t: Tier): nat {
    match t
    case Red => 0
    case Yellow => 1
    case Green => 2
  }

  /** More engagement never gives a lower tier. */
  lemma TierMonotonic(e1: real, e2: real)
    requires e1 <= e2
    ensures TierRank(EngagementTier(e1)) <= TierRank(EngagementTier(e2))
  {
  }

  /** `username.charAt(1).toUpperCase()`: the character after the '@',
      upper-cased, or "" when the name is shorter than two characters. */
  function AvatarInitial(username: string): (initial: string)
    ensures |username| >= 2 ==> initial == [UpperAscii(username[1])]
    ensures |username| < 2 ==> initial == ""
  {
    if |username| >= 2 then [UpperAscii(username[1])] else ""
  }

  /** The rendered row of one user. */
  datatype Row = Row(
    key: string, initial: string, username: string, verifiedMark: bool,
    followers: nat, engagement: real, tier: Tier, lastPost: string)

  function RenderRow(u: User): (r: Row)
    ensures r.verifiedMark <==> u.verified
    ensures r.key == u.id && r.username == u.username
    ensures r.tier == EngagementTier(u.engagement) && r.initial == AvatarInitial(u.username)
  {
    Row(u.id, AvatarInitial(u.username), u.username, u.verified,
        u.followers, u.engagement, EngagementTier(u.engagement), u.lastPost)
  }

  /** `users.map(...)`, one row per user in list order. */
  function RenderRows(users: seq<User>): (rows: seq<Row>)
    ensures |rows| == |users|
  {
    if users == [] then [] else [RenderRow(users[0])] + RenderRows(users[1..])
  }

  lemma {:induction false} RenderRowsAt(users: seq<User>, i: nat)
    requires i < |users|
    ensures RenderRows(users)[i] == RenderRow(users[i])
  {
    if i > 0 {
      RenderRowsAt(users[1..], i - 1);
    }
  }

  /** The mock list assigned by the mount effect. */
  function MockUsers(): (users: seq<User>)
    ensures |users| == 5
  {
    [ User("1", "@john_doe", 15420, 4.2, "2 hours ago", true),
      User("2", "@jane_smith", 8930, 3.8, "5 hours ago", false),
      User("3", "@mike_wilson", 24150, 5.1, "1 day ago", true),
      User("4", "@sarah_jones", 12680, 4.7, "3 hours ago", false),
      User("5", "@alex_brown", 18750, 3.9, "6 hours ago", true) ]
  }

  /** The mock rows have the distinct keys "1".."5" and render, in order,
      with these tiers, initials and verified marks. */
  lemma MockRowsRender()
    ensures forall i, j :: 0 <= i < j < 5 ==> MockUsers()[i].id != MockUsers()[j].id
    ensures var rows := RenderRows(MockUsers());
      && [rows[0].key, rows[1].key, rows[2].key, rows[3].key, rows[4].key] == ["1", "2", "3", "4", "5"]
      && [rows[0].tier, rows[1].tier, rows[2].tier, rows[3].tier, rows[4].tier] == [Yellow, Yellow, Green, Green, Yellow]
      && [rows[0].initial, rows[1].initial, rows[2].initial, rows[3].initial, rows[4].initial] == ["J", "J", "M", "S", "A"]
      && [rows[0].verifiedMark, rows[1].verifiedMark, rows[2].verifiedMark, rows[3].verifiedMark, rows[4].verifiedMark]
         == [true, false, true, false, true]
  {
    var users := MockUsers();
    RenderRowsAt(users, 0);
    RenderRowsAt(users, 1);
    RenderRowsAt(users, 2);
    RenderRowsAt(users, 3);
    RenderRowsAt(users, 4);
    var rows := RenderRows(users);
    assert rows[0].initial == [UpperAscii('j')] == "J";
    assert rows[1].initial == [UpperAscii('j')] == "J";
    assert rows[2].initial == [UpperAscii('m')] == "M";
    assert rows[3].initial == [UpperAscii('s')] == "S";
    assert rows[4].initial == [UpperAscii('a')] == "A";
  }

  class UserTable {
    var users: seq<User>

    constructor ()
      ensures users == []
    {
      users := [];
    }

    /** The mount effect: the list is replaced wholesale by the mock rows. */
    method LoadMockUsers()
      modifies this
      ensures users == MockUsers()
    {
      users := MockUsers();
    }

    function Rows(): (rows: seq<Row>)
      reads this
      ensures |rows| == |users|
    {
      RenderRows(users)
    }
  }
}
