/** The collections grid (src/components/collections/CollectionsGrid.tsx):
    loading the user's collections with their resource counts, the icon
    chosen from a collection's name, and the count label. */
module CollectionsGrid {
  import opened Common

  // ---------------------------------------------------------------------------
  // Icons

  datatype Icon = CodeIcon | PaintbrushIcon | BookIcon | FileTextIcon

  /** `getIcon`: substring tests on the lower-cased name, in priority order. */
  function IconFor(name: string): (icon: Icon)
  {
    IconForLower(ToLower(name))
  }

  /** The if-chain of `getIcon` on the already lower-cased name. */
  function IconForLower(lower: string): Icon
  {
    if Includes(lower, "code") || Includes(lower, "dev") then CodeIcon
    else if Includes(lower, "design") || Includes(lower, "art") then PaintbrushIcon
    else if Includes(lower, "book") || Includes(lower, "read") then BookIcon
    else FileTextIcon
  }

  /** Each icon, characterised by the words the lower-cased name contains:
      an earlier rule always wins over a later one. */
  lemma IconRules(name: string)
    ensures var lower := ToLower(name);
      && (IconFor(name) == CodeIcon <==> Includes(lower, "code") || Includes(lower, "dev"))
      && (IconFor(name) == PaintbrushIcon <==>
            !Includes(lower, "code") && !Includes(lower, "dev") && (Includes(lower, "design") || Includes(lower, "art")))
      && (IconFor(name) == BookIcon <==>
            !Includes(lower, "code") && !Includes(lower, "dev") && !Includes(lower, "design") && !Includes(lower, "art")
            && (Includes(lower, "book") || Includes(lower, "read")))
      && (IconFor(name) == FileTextIcon <==>
            !Includes(lower, "code") && !Includes(lower, "dev") && !Includes(lower, "design") && !Includes(lower, "art")
            && !Includes(lower, "book") && !Includes(lower, "read"))
  {
  }

  /** The icon does not depend on the name's letter case. */
  lemma IconIgnoresCase(name: string)
    ensures IconFor(ToLower(name)) == IconFor(name)
  {
    ToLowerIdempotent(name);
  }

  /** Matching is by substring: "Startup" contains "art", and "Dev Books"
      contains "dev", which outranks "book". */
  lemma IconExampleDev()
    ensures IconFor("Dev Books") == CodeIcon
  {
    LowerExample("Dev Books", "dev books");
    assert StartsWith("dev books", "dev");
  }

  lemma IconExampleStartup()
    ensures IconFor("Startup") == PaintbrushIcon
  {
    LowerExample("Startup", "startup");
    MissingCharNotIncluded("startup", "code", 'c');
    MissingCharNotIncluded("startup", "dev", 'd');
    assert StartsWith("artup", "art");
    assert "tartup"[1..] == "artup" && "startup"[1..] == "tartup";
    assert Includes("startup", "art");
  }

  lemma IconExampleMisc()
    ensures IconFor("Misc") == FileTextIcon
  {
    LowerExample("Misc", "misc");
    MissingCharNotIncluded("misc", "code", 'o');
    MissingCharNotIncluded("misc", "dev", 'd');
    MissingCharNotIncluded("misc", "design", 'd');
    MissingCharNotIncluded("misc", "art", 'a');
    MissingCharNotIncluded("misc", "book", 'b');
    MissingCharNotIncluded("misc", "read", 'r');
  }

  /** Lower-casing a name, checked character by character. */
  lemma LowerExample(name: string, lower: string)
    requires |lower| == |name| && forall i :: 0 <= i < |name| ==> lower[i] == LowerChar(name[i])
    ensures ToLower(name) == lower
  {
  }

  // ---------------------------------------------------------------------------
  // Counts

  /** A collection row as selected, with `resource_count` still the list of
      aggregate rows (normally one `{count}` entry). */
  datatype CollectionRow = CollectionRow(id: string, name: string, description: Option<string>, counts: seq<int>)

  /** A collection as shown, with its flattened count. */
  datatype CollectionCard = CollectionCard(id: string, name: string, description: Option<string>, resourceCount: int)

  /** `resource_count[0]?.count || 0`. */
  function FlatCount(counts: seq<int>): (n: int)
    ensures counts == [] ==> n == 0
    ensures counts != [] ==> n == counts[0]
  {
    if counts == [] then 0 else counts[0]
  }

  /** The flattening map over `data || []`. */
  function Flatten(data: Option<seq<CollectionRow>>): (cards: seq<CollectionCard>)
  {
    var rows := if data.Some? then data.value else [];
    seq(|rows|, i requires 0 <= i < |rows| =>
      CollectionCard(rows[i].id, rows[i].name, rows[i].description, FlatCount(rows[i].counts)))
  }

  /** One card per row, in order, keeping every field but the count, which
      is the first aggregate or 0; no rows give no cards. */
  lemma FlattenProperties(data: Option<seq<CollectionRow>>)
    ensures data.None? ==> Flatten(data) == []
    ensures data.Some? ==> |Flatten(data)| == |data.value|
    ensures data.Some? ==> forall i :: 0 <= i < |data.value| ==>
      var row, card := data.value[i], Flatten(data)[i];
      && card.id == row.id && card.name == row.name && card.description == row.description
      && (row.counts == [] ==> card.resourceCount == 0)
      && (row.counts != [] ==> card.resourceCount == row.counts[0])
  {
    if data.None? {
      assert |Flatten(data)| == 0;
    } else {
      var rows := data.value;
      forall i | 0 <= i < |rows|
        ensures Flatten(data)[i] == CollectionCard(rows[i].id, rows[i].name, rows[i].description, FlatCount(rows[i].counts))
      {
      }
    }
  }

  /** The unit shown after the count. */
  function CountLabel(count: int): (word: string)
  {
    if count == 1 then "resource" else "resources"
  }

  /** Singular exactly for one; the plural adds an "s". */
  lemma CountLabelProperties(count: int)
    ensures CountLabel(count) == "resource" <==> count == 1
    ensures count != 1 ==> CountLabel(count) == CountLabel(1) + "s"
  {
  }

  // ---------------------------------------------------------------------------
  // Loading

  const ConnectMessage: string := "Please connect your social media account to start saving resources"
  const LoadFallback: string := "Failed to load collections"

  /** A thrown value: an `Error` with its message, or anything else. */
  datatype Thrown = ErrorObject(message: string) | OtherValue

  /** What `auth.getUser()` answered. */
  datatype UserLookup = UserFailed(thrown: Thrown) | NoUser | SignedIn(userId: string)

  /** What the collections query answered. */
  datatype QueryOutcome = Rows(data: Option<seq<CollectionRow>>) | QueryFailed(code: string, thrown: Thrown)

  datatype GridState = GridState(collections: seq<CollectionCard>, isLoading: bool, error: Option<string>)

  /** The `catch` branch: an `Error`'s message, else the fallback text. */
  function CaughtMessage(t: Thrown): (m: string)
    ensures t.ErrorObject? ==> m == t.message
    ensures t.OtherValue? ==> m == LoadFallback
  {
    match t
    case ErrorObject(message) => message
    case OtherValue => LoadFallback
  }

  /** The fetch effect, given what the two backend calls answered and
      whether the grid is still mounted when they have: loading starts and
      the error is cleared; a failure or a missing user records a message;
      rows are flattened into the grid; and loading ends unless the grid was
      unmounted meanwhile. */
  function Load(s: GridState, user: UserLookup, query: QueryOutcome, mounted: bool): (t: GridState)
  {
    var started := s.(isLoading := true, error := None);
    var settled :=
      match user
      case UserFailed(thrown) =>
        if mounted then started.(error := Some(CaughtMessage(thrown))) else started
      case NoUser =>
        if mounted then started.(error := Some(ConnectMessage)) else started
      case SignedIn(_) =>
        match query
        case QueryFailed(code, thrown) =>
          if code == "PGRST116" then started.(error := Some(ConnectMessage))
          else if mounted then started.(error := Some(CaughtMessage(thrown)))
          else started
        case Rows(data) =>
          if mounted then started.(collections := Flatten(data)) else started;
    if mounted then settled.(isLoading := false) else settled
  }

  /** Loading ends exactly when the grid is still mounted; the list changes
      only when rows arrive while mounted, and then is the flattened rows
      with no error; a missing user and the PGRST116 code both record the
      connect-account message, the latter even after unmounting; any other
      failure records the thrown message. */
  lemma LoadProperties(s: GridState, user: UserLookup, query: QueryOutcome, mounted: bool)
    ensures var t := Load(s, user, query, mounted);
      && t.isLoading == !mounted
      && (user.SignedIn? && query.Rows? && mounted ==> t.collections == Flatten(query.data) && t.error.None?)
      && (!(user.SignedIn? && query.Rows? && mounted) ==> t.collections == s.collections)
      && (user.NoUser? && mounted ==> t.error == Some(ConnectMessage))
      && (user.SignedIn? && query.QueryFailed? && query.code == "PGRST116" ==> t.error == Some(ConnectMessage))
      && (user.SignedIn? && query.QueryFailed? && query.code != "PGRST116" && mounted ==>
            t.error == Some(CaughtMessage(query.thrown)))
      && (user.UserFailed? && mounted ==> t.error == Some(CaughtMessage(user.thrown)))
      && (!mounted && !(user.SignedIn? && query.QueryFailed? && query.code == "PGRST116") ==> t.error.None?)
  {
  }
}
