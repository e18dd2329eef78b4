/** The boards page: a list of boards held in page state, a search box that
    filters it, the create-board dialog flag, creating and deleting boards,
    and the icon and colour lookups used to draw each card. */
module BoardsPage {
  import opened Common
  import opened Text

  datatype ViewType = Kanban | List | Table

  datatype Board = Board(
    id: string,
    title: string,
    description: string,
    viewType: ViewType,
    taskCount: nat,
    icon: string,
    color: string)

  const SEED_BOARDS: seq<Board> := [
    Board("1", "Project Planning", "Track project milestones and deadlines", Kanban, 12, "RocketLaunchIcon", "blue"),
    Board("2", "Team Tasks", "Manage team assignments and progress", List, 8, "UserGroupIcon", "purple"),
    Board("3", "Bug Tracking", "Track and resolve software issues", Table, 15, "BoltIcon", "red"),
    Board("4", "Feature Requests", "Manage new feature proposals", Kanban, 6, "LightBulbIcon", "yellow"),
    Board("5", "Analytics Dashboard", "Track project metrics and KPIs", Table, 10, "ChartBarIcon", "green"),
    Board("6", "Sprint Planning", "Plan and track sprint tasks", List, 9, "CalendarIcon", "indigo")
  ]

  /** The search predicate: the lowercased title or description contains the
      lowercased query. */
  function BoardMatches(query: string): Board -> bool
  {
    (b: Board) => Contains(ToLower(b.title), ToLower(query)) || Contains(ToLower(b.description), ToLower(query))
  }

  /** `filteredBoards`. */
  function FilterBoards(boards: seq<Board>, query: string): seq<Board>
  {
    Filter(boards, BoardMatches(query))
  }

  /** The board `handleCreateBoard` builds from the dialog's fields. */
  function NewBoard(id: string, title: string, description: string, viewType: ViewType): Board
  {
    Board(id, title, description, viewType, 0, "DocumentTextIcon", "blue")
  }

  /** The list the delete handler keeps. */
  function WithoutBoard(boards: seq<Board>, boardId: string): seq<Board>
  {
    Filter(boards, (b: Board) => b.id != boardId)
  }

  class BoardsPageState {
    var searchQuery: string
    var isCreateModalOpen: bool
    var boards: seq<Board>

    constructor ()
      ensures searchQuery == "" && !isCreateModalOpen && boards == SEED_BOARDS
    {
      searchQuery := "";
      isCreateModalOpen := false;
      boards := SEED_BOARDS;
    }

    /** The boards shown for the current search text. */
    function FilteredBoards(): (r: seq<Board>)
      reads this
      ensures forall b :: b in r <==> b in boards && BoardMatches(searchQuery)(b)
      ensures searchQuery == "" ==> r == boards
    {
      FilterBoardsMembership(boards, searchQuery);
      EmptyQueryKeepsAll(boards, searchQuery);
      FilterBoards(boards, searchQuery)
    }

    /** `handleCreateBoard`; `nowId` is the id drawn from the clock. */
    method CreateBoard(title: string, description: string, viewType: ViewType, nowId: string)
      modifies this
      ensures boards == old(boards) + [NewBoard(nowId, title, description, viewType)]
      ensures !isCreateModalOpen && searchQuery == old(searchQuery)
    {
      boards := boards + [NewBoard(nowId, title, description, viewType)];
      isCreateModalOpen := false;
    }

    /** The card's `onDelete`. */
    method DeleteBoard(boardId: string)
      modifies this
      ensures boards == WithoutBoard(old(boards), boardId)
      ensures forall b :: b in boards <==> b in old(boards) && b.id != boardId
      ensures isCreateModalOpen == old(isCreateModalOpen) && searchQuery == old(searchQuery)
    {
      FilterMembershipAll(boards, (b: Board) => b.id != boardId);
      boards := WithoutBoard(boards, boardId);
    }
  }

  lemma FilterMembershipAll<T>(s: seq<T>, p: T -> bool)
    ensures forall x :: x in Filter(s, p) <==> x in s && p(x)
  {
    forall x {
      FilterMembership(s, p, x);
    }
  }

  /** A board is shown exactly when it is in the list and matches the query. */
  lemma FilterBoardsMembership(boards: seq<Board>, query: string)
    ensures forall b :: b in FilterBoards(boards, query) <==> b in boards && BoardMatches(query)(b)
  {
    FilterMembershipAll(boards, BoardMatches(query));
  }

  /** The empty query matches every board, so nothing is hidden. */
  lemma EmptyQueryKeepsAll(boards: seq<Board>, query: string)
    ensures query == "" ==> FilterBoards(boards, query) == boards
  {
    if query != "" {
      return;
    }
    forall i | 0 <= i < |boards|
      ensures BoardMatches("")(boards[i])
    {
      ContainsEmpty(ToLower(boards[i].title));
    }
    FilterAll(boards, BoardMatches(""));
  }

  /** Filtering keeps the list's order: the shown boards of a concatenation
      are the shown boards of each part, one after the other; a newly created
      board is shown last, if at all. */
  lemma FilterKeepsOrder(boards: seq<Board>, more: seq<Board>, query: string)
    ensures FilterBoards(boards + more, query) == FilterBoards(boards, query) + FilterBoards(more, query)
    ensures |more| == 1 ==>
      FilterBoards(boards + more, query)
        == FilterBoards(boards, query) + (if BoardMatches(query)(more[0]) then more else [])
  {
    FilterAppend(boards, more, BoardMatches(query));
  }

  /** The search ignores the case of the query's ASCII letters. */
  lemma QueryIsCaseInsensitive(query: string)
    ensures forall b :: BoardMatches(ToLower(query))(b) == BoardMatches(query)(b)
  {
    ToLowerIdempotent(query);
  }

  /** `getIconComponent`'s table, keyed by component name. */
  datatype Icon =
    | RocketLaunchIcon | UserGroupIcon | BoltIcon | LightBulbIcon | ChartBarIcon
    | CalendarIcon | DocumentTextIcon | ClipboardDocumentListIcon | ClipboardDocumentCheckIcon | ClipboardIcon

  const ICONS: map<string, Icon> := map[
    "RocketLaunchIcon" := RocketLaunchIcon,
    "UserGroupIcon" := UserGroupIcon,
    "BoltIcon" := BoltIcon,
    "LightBulbIcon" := LightBulbIcon,
    "ChartBarIcon" := ChartBarIcon,
    "CalendarIcon" := CalendarIcon,
    "DocumentTextIcon" := DocumentTextIcon,
    "ClipboardDocumentListIcon" := ClipboardDocumentListIcon,
    "ClipboardDocumentCheckIcon" := ClipboardDocumentCheckIcon,
    "ClipboardIcon" := ClipboardIcon
  ]

  /** `getIconComponent`: the named icon, or the document icon for a name
      the table does not have. */
  function GetIconComponent(iconName: string): Icon
  {
    if iconName in ICONS then ICONS[iconName] else DocumentTextIcon
  }

  /** The component name of each icon. */
  function IconName(icon: Icon): string
  {
    match icon
    case RocketLaunchIcon => "RocketLaunchIcon"
    case UserGroupIcon => "UserGroupIcon"
    case BoltIcon => "BoltIcon"
    case LightBulbIcon => "LightBulbIcon"
    case ChartBarIcon => "ChartBarIcon"
    case CalendarIcon => "CalendarIcon"
    case DocumentTextIcon => "DocumentTextIcon"
    case ClipboardDocumentListIcon => "ClipboardDocumentListIcon"
    case ClipboardDocumentCheckIcon => "ClipboardDocumentCheckIcon"
    case ClipboardIcon => "ClipboardIcon"
  }

  /** Every icon is reached by its own name, so the lookup is the inverse of
      `IconName`; any name not in the table falls back to the document icon. */
  lemma IconLookup(iconName: string)
    ensures forall icon: Icon :: GetIconComponent(IconName(icon)) == icon
    ensures iconName in ICONS ==> IconName(GetIconComponent(iconName)) == iconName
    ensures iconName !in ICONS ==> GetIconComponent(iconName) == DocumentTextIcon
  {
  }

  /** Every seed board and every created board names an icon of the table. */
  lemma BoardIconsAreKnown(id: string, title: string, description: string, viewType: ViewType)
    ensures forall i :: 0 <= i < |SEED_BOARDS| ==> SEED_BOARDS[i].icon in ICONS
    ensures NewBoard(id, title, description, viewType).icon in ICONS
  {
  }

  datatype ColorClasses = ColorClasses(bg: string, text: string)

  /** The tint classes of a colour name. */
  function Swatch(color: string): ColorClasses
  {
    ColorClasses("bg-" + color + "-50", "text-" + color + "-600")
  }

  const COLORS: map<string, ColorClasses> := map[
    "blue" := ColorClasses("bg-blue-50", "text-blue-600"),
    "purple" := ColorClasses("bg-purple-50", "text-purple-600"),
    "red" := ColorClasses("bg-red-50", "text-red-600"),
    "yellow" := ColorClasses("bg-yellow-50", "text-yellow-600"),
    "green" := ColorClasses("bg-green-50", "text-green-600"),
    "indigo" := ColorClasses("bg-indigo-50", "text-indigo-600")
  ]

  /** `getColorClasses`: the colour's classes, or the blue ones for a colour
      the table does not have. */
  function GetColorClasses(color: string): ColorClasses
  {
    if color in COLORS then COLORS[color] else COLORS["blue"]
  }

  /** The table holds, for each of its six colours, that colour's own tint
      classes; any other name gets blue's. */
  lemma ColorLookup(color: string)
    ensures COLORS.Keys == {"blue", "purple", "red", "yellow", "green", "indigo"}
    ensures GetColorClasses(color) == Swatch(if color in COLORS then color else "blue")
    ensures color !in COLORS ==> GetColorClasses(color) == GetColorClasses("blue")
  {
    SwatchTable();
  }

  lemma SwatchTable()
    ensures forall c :: c in COLORS ==> COLORS[c] == Swatch(c)
  {
    forall c | c in COLORS
      ensures COLORS[c] == Swatch(c)
    {
      SwatchOf(c);
    }
  }

  lemma SwatchOf(c: string)
    requires c in COLORS
    ensures COLORS[c] == Swatch(c)
  {
    if c == "blue" {
      assert "bg-" + "blue" + "-50" == "bg-blue-50";
      assert "text-" + "blue" + "-600" == "text-blue-600";
    } else if c == "purple" {
      assert "bg-" + "purple" + "-50" == "bg-purple-50";
      assert "text-" + "purple" + "-600" == "text-purple-600";
    } else if c == "red" {
      assert "bg-" + "red" + "-50" == "bg-red-50";
      assert "text-" + "red" + "-600" == "text-red-600";
    } else if c == "yellow" {
      assert "bg-" + "yellow" + "-50" == "bg-yellow-50";
      assert "text-" + "yellow" + "-600" == "text-yellow-600";
    } else if c == "green" {
      assert "bg-" + "green" + "-50" == "bg-green-50";
      assert "text-" + "green" + "-600" == "text-green-600";
    } else if c == "indigo" {
      assert "bg-" + "indigo" + "-50" == "bg-indigo-50";
      assert "text-" + "indigo" + "-600" == "text-indigo-600";
    }
  }
}
