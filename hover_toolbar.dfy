/**
 * The hover toolbar: where it is drawn (clamped into the viewport), how the
 * built-in tools and the plugins are sorted into groups, which tools are shown
 * inline and what the "more" menu holds.
 */
module HoverToolbar {
  import opened Wrappers
  import opened JsString
  import opened Dom
  import opened HoverToolbarPlugins

  // ---------------------------------------------------------------------------
  // Placement

  datatype ToolbarStyle = Hidden | Placed(left: real, top: real)

  /**
   * `getToolbarStyle`: centred above the anchor point, pushed right to 10 px
   * from the left edge or left to 10 px from the right edge, and moved below
   * the point when there is no room above.
   */
  function GetToolbarStyle(position: Position, width: real, height: real, viewportWidth: real): ToolbarStyle {
    if !position.visible then Hidden
    else
      var x0 := position.x - width / 2.0;
      var y0 := position.y - height - 10.0;
      var left := if x0 < 10.0 then 10.0 else if x0 + width > viewportWidth - 10.0 then viewportWidth - width - 10.0 else x0;
      var top := if y0 < 10.0 then position.y + 10.0 else y0;
      Placed(left, top)
  }

  /** Hidden exactly when the position is not visible. */
  lemma HiddenIffNotVisible(position: Position, width: real, height: real, viewportWidth: real)
    ensures GetToolbarStyle(position, width, height, viewportWidth) == Hidden <==> !position.visible
  {
  }

  /**
   * When the toolbar fits the viewport with the 10 px margins, it lies inside
   * them; an unclamped toolbar is centred on the anchor.
   */
  lemma StyleClampsIntoViewport(position: Position, width: real, height: real, viewportWidth: real)
    requires position.visible && 0.0 <= width <= viewportWidth - 20.0
    ensures var s := GetToolbarStyle(position, width, height, viewportWidth);
      && 10.0 <= s.left && s.left + width <= viewportWidth - 10.0
      && (10.0 <= position.x - width / 2.0 && position.x + width / 2.0 <= viewportWidth - 10.0 ==>
            s.left + width / 2.0 == position.x)
  {
  }

  /**
   * Whatever the sizes, the left edge is at the margin or the right edge within
   * it; a toolbar too wide for the viewport is aligned on the right margin.
   */
  lemma StyleEdges(position: Position, width: real, height: real, viewportWidth: real)
    requires position.visible
    ensures var s := GetToolbarStyle(position, width, height, viewportWidth);
      && (s.left == 10.0 || s.left + width <= viewportWidth - 10.0)
      && (s.left >= 10.0 || s.left + width == viewportWidth - 10.0)
  {
  }

  /** Above the anchor with a 10 px gap when that stays 10 px from the top, else 10 px below it. */
  lemma StyleTop(position: Position, width: real, height: real, viewportWidth: real)
    requires position.visible
    ensures var s := GetToolbarStyle(position, width, height, viewportWidth);
      && (position.y - height - 10.0 >= 10.0 ==> s.top == position.y - height - 10.0 && s.top + height < position.y)
      && (position.y - height - 10.0 < 10.0 ==> s.top == position.y + 10.0)
      && (position.y >= 0.0 ==> s.top >= 10.0)
  {
  }

  // ---------------------------------------------------------------------------
  // Tools and groups

  function Tool(id: string, icon: string, title: string, handle: nat, group: Group): Plugin {
    Plugin(id, icon, title, Callback(handle), None, Some(group))
  }

  /** The built-in format tools. */
  const DefaultFormatTools: seq<Plugin> := [
    Tool("header", "H", "标题", 0, Format),
    Tool("paragraph", "¶", "段落", 1, Format),
    Tool("list", "UnorderedListOutlined", "无序列表", 2, Format),
    Tool("numbered-list", "OrderedListOutlined", "有序列表", 3, Format),
    Tool("checklist", "CheckSquareOutlined", "任务列表", 4, Format),
    Tool("quote", "BlockOutlined", "引用", 5, Format)]

  /** The built-in insert tools. */
  const DefaultInsertTools: seq<Plugin> := [
    Tool("code", "CodeOutlined", "代码块", 6, Insert),
    Tool("image", "PictureOutlined", "图片", 7, Insert),
    Tool("table", "TableOutlined", "表格", 8, Insert),
    Tool("link", "LinkOutlined", "链接", 9, Insert)]

  /** `defaultTools`: six that format, then four that insert. */
  const DefaultTools: seq<Plugin> := DefaultFormatTools + DefaultInsertTools

  /** The block actions that always lead the block group. */
  const BlockActions: seq<Plugin> := [
    Tool("move", "DragOutlined", "拖拽移动", 10, Block),
    Tool("copy", "CopyOutlined", "复制块", 11, Block),
    Tool("delete", "DeleteOutlined", "删除块", 12, Block)]

  /** `allTools.filter(tool => tool.group === g)`. */
  function InGroup(tools: seq<Plugin>, g: Group): (r: seq<Plugin>)
    ensures |r| <= |tools|
    ensures forall i :: 0 <= i < |r| ==> r[i].group == Some(g)
  {
    if tools == [] then []
    else
      var init := InGroup(tools[..|tools| - 1], g);
      var last := tools[|tools| - 1];
      if last.group == Some(g) then init + [last] else init
  }

  datatype GroupedTools = GroupedTools(format: seq<Plugin>, insert: seq<Plugin>, block: seq<Plugin>, custom: seq<Plugin>)

  /** `groupedTools` over `[...defaultTools, ...plugins]`. */
  function GroupTools(plugins: seq<Plugin>): GroupedTools {
    var all := DefaultTools + plugins;
    GroupedTools(InGroup(all, Format), InGroup(all, Insert), BlockActions + InGroup(all, Block), InGroup(all, Custom))
  }

  lemma {:induction false} InGroupMembers(tools: seq<Plugin>, g: Group, t: Plugin)
    ensures t in InGroup(tools, g) <==> t in tools && t.group == Some(g)
  {
    if tools != [] {
      InGroupMembers(tools[..|tools| - 1], g, t);
      assert tools == tools[..|tools| - 1] + [tools[|tools| - 1]];
    }
  }

  lemma {:induction false} InGroupAppend(a: seq<Plugin>, b: seq<Plugin>, g: Group)
    ensures InGroup(a + b, g) == InGroup(a, g) + InGroup(b, g)
  {
    if b == [] {
      assert a + b == a;
    } else {
      assert (a + b)[..|a + b| - 1] == a + b[..|b| - 1];
      assert (a + b)[|a + b| - 1] == b[|b| - 1];
      InGroupAppend(a, b[..|b| - 1], g);
    }
  }

  /**
   * A tool lands in the group its `group` names and in no other; the block
   * group holds the block actions first. A tool without a group is in none.
   */
  lemma GroupsPartition(plugins: seq<Plugin>, t: Plugin)
    ensures var gt := GroupTools(plugins); var all := DefaultTools + plugins;
      && (t in gt.format <==> t in all && t.group == Some(Format))
      && (t in gt.insert <==> t in all && t.group == Some(Insert))
      && (t in gt.custom <==> t in all && t.group == Some(Custom))
      && (t in gt.block <==> t in BlockActions || (t in all && t.group == Some(Block)))
      && gt.block[..3] == BlockActions
  {
    var all := DefaultTools + plugins;
    InGroupMembers(all, Format, t);
    InGroupMembers(all, Insert, t);
    InGroupMembers(all, Block, t);
    InGroupMembers(all, Custom, t);
  }

  /** The built-in tools fill the format and insert groups first, plugins follow in order. */
  lemma GroupsStartWithDefaults(plugins: seq<Plugin>)
    ensures GroupTools(plugins).format == DefaultFormatTools + InGroup(plugins, Format)
    ensures GroupTools(plugins).insert == DefaultInsertTools + InGroup(plugins, Insert)
    ensures GroupTools(plugins).custom == InGroup(plugins, Custom)
    ensures GroupTools(plugins).block == BlockActions + InGroup(plugins, Block)
  {
    DefaultGroups();
    GroupAfterPrefix(plugins, Format, DefaultFormatTools);
    GroupAfterPrefix(plugins, Insert, DefaultInsertTools);
    GroupAfterPrefix(plugins, Block, []);
    GroupAfterPrefix(plugins, Custom, []);
  }

  lemma GroupAfterPrefix(plugins: seq<Plugin>, g: Group, prefix: seq<Plugin>)
    requires InGroup(DefaultTools, g) == prefix
    ensures InGroup(DefaultTools + plugins, g) == prefix + InGroup(plugins, g)
  {
    GroupAfterDefaults(plugins, g);
  }

  lemma GroupAfterDefaults(plugins: seq<Plugin>, g: Group)
    ensures InGroup(DefaultTools + plugins, g) == InGroup(DefaultTools, g) + InGroup(plugins, g)
  {
    InGroupAppend(DefaultTools, plugins, g);
  }

  lemma DefaultGroups()
    ensures InGroup(DefaultTools, Format) == DefaultFormatTools
    ensures InGroup(DefaultTools, Insert) == DefaultInsertTools
    ensures InGroup(DefaultTools, Block) == [] && InGroup(DefaultTools, Custom) == []
  {
    var f, i := DefaultFormatTools, DefaultInsertTools;
    InGroupAll(f, Format);
    InGroupAll(i, Insert);
    InGroupNone(f, Insert); InGroupNone(f, Block); InGroupNone(f, Custom);
    InGroupNone(i, Format); InGroupNone(i, Block); InGroupNone(i, Custom);
    InGroupAppend(f, i, Format);
    InGroupAppend(f, i, Insert);
    InGroupAppend(f, i, Block);
    InGroupAppend(f, i, Custom);
  }

  lemma {:induction false} InGroupAll(tools: seq<Plugin>, g: Group)
    requires forall i :: 0 <= i < |tools| ==> tools[i].group == Some(g)
    ensures InGroup(tools, g) == tools
  {
    if tools != [] {
      InGroupAll(tools[..|tools| - 1], g);
    }
  }

  lemma {:induction false} InGroupNone(tools: seq<Plugin>, g: Group)
    requires forall i :: 0 <= i < |tools| ==> tools[i].group != Some(g)
    ensures InGroup(tools, g) == []
  {
    if tools != [] {
      InGroupNone(tools[..|tools| - 1], g);
    }
  }

  /** A plugin without a group is filed under custom by the manager but shown in no toolbar group. */
  lemma UngroupedPluginHidden(plugins: seq<Plugin>, p: Plugin)
    requires p.group.None?
    ensures GroupKey(p) == Custom
    ensures var gt := GroupTools(plugins); p !in gt.format && p !in gt.insert && p !in gt.custom
    ensures p !in BlockActions ==> p !in GroupTools(plugins).block
  {
    GroupsPartition(plugins, p);
  }

  // ---------------------------------------------------------------------------
  // What is rendered

  datatype MoreItem = ToolItem(id: string) | Divider | Settings

  function ToolItems(tools: seq<Plugin>): (r: seq<MoreItem>)
    ensures |r| == |tools|
    ensures forall i :: 0 <= i < |tools| ==> r[i] == ToolItem(tools[i].id)
  {
    if tools == [] then [] else [ToolItem(tools[0].id)] + ToolItems(tools[1..])
  }

  datatype ToolbarView = ToolbarView(
    format: seq<Plugin>,
    insert: seq<Plugin>,
    block: seq<Plugin>,
    more: Option<seq<MoreItem>>)

  function Take(s: seq<Plugin>, n: nat): seq<Plugin> { s[..Min(n, |s|)] }

  /** The "more" button's condition as written: custom tools, or format/insert beyond the inline slices. */
  predicate ShowMoreAsWritten(gt: GroupedTools) {
    |gt.custom| > 0 || |gt.format| > 4 || |gt.insert| > 3
  }

  /** The "more" menu as written: the custom tools, a divider and the settings entry. */
  function MoreMenuAsWritten(gt: GroupedTools): seq<MoreItem> {
    ToolItems(gt.custom) + [Divider, Settings]
  }

  /** The toolbar as written: nothing when hidden; 4, 3 and 2 inline tools; the menu behind its condition. */
  function RenderAsWritten(visible: bool, plugins: seq<Plugin>): (v: Option<ToolbarView>)
    ensures v.None? <==> !visible
    ensures v.Some? ==> var gt := GroupTools(plugins);
      && (v.value.more.Some? <==> |gt.custom| > 0 || |gt.format| > 4 || |gt.insert| > 3)
      && (v.value.more.Some? ==>
            && |v.value.more.value| == |gt.custom| + 2
            && (forall i :: 0 <= i < |gt.custom| ==> v.value.more.value[i] == ToolItem(gt.custom[i].id))
            && v.value.more.value[|gt.custom|..] == [Divider, Settings])
  {
    if !visible then None
    else
      var gt := GroupTools(plugins);
      Some(ToolbarView(Take(gt.format, 4), Take(gt.insert, 3), Take(gt.block, 2),
                       if ShowMoreAsWritten(gt) then Some(MoreMenuAsWritten(gt)) else None))
  }

  /** A tool can be clicked: it is inline, or it is an item of the "more" menu. */
  predicate Reachable(v: ToolbarView, t: Plugin) {
    t in v.format || t in v.insert || t in v.block || (v.more.Some? && ToolItem(t.id) in v.more.value)
  }

  /**
   * As written, the "more" button shows because the built-in format and insert
   * groups overflow their inline slices, yet the overflowing tools (checklist,
   * quote, link) and the third block action (delete) are in neither the
   * inline rows nor the menu.
   */
  lemma AsWrittenOverflowUnreachable()
    ensures var v := RenderAsWritten(true, []).value;
      && v.more.Some?
      && !Reachable(v, DefaultFormatTools[4]) && !Reachable(v, DefaultFormatTools[5])
      && !Reachable(v, DefaultInsertTools[3]) && !Reachable(v, BlockActions[2])
  {
    GroupsStartWithDefaults([]);
    var gt := GroupTools([]);
    assert InGroup([], Format) == [] && InGroup([], Insert) == [] && InGroup([], Block) == [] && InGroup([], Custom) == [];
    assert gt.format == DefaultFormatTools && gt.insert == DefaultInsertTools && gt.block == BlockActions && gt.custom == [];
    var v := RenderAsWritten(true, []).value;
    assert v.format == DefaultFormatTools[..4] && v.insert == DefaultInsertTools[..3] && v.block == BlockActions[..2];
    assert |gt.format| == 6 && ShowMoreAsWritten(gt);
    assert MoreMenuAsWritten(gt) == ToolItems([]) + [Divider, Settings] == [Divider, Settings];
  }

  /** The "more" menu holding every tool cut from the inline rows, then the custom tools. */
  function MoreMenu(gt: GroupedTools): seq<MoreItem> {
    ToolItems(gt.format[Min(4, |gt.format|)..] + gt.insert[Min(3, |gt.insert|)..]
              + gt.block[Min(2, |gt.block|)..] + gt.custom) + [Divider, Settings]
  }

  /** The button shows whenever the menu has a tool in it. */
  predicate ShowMore(gt: GroupedTools) {
    |gt.custom| > 0 || |gt.format| > 4 || |gt.insert| > 3 || |gt.block| > 2
  }

  /** The toolbar with the overflow in the "more" menu. */
  function Render(visible: bool, plugins: seq<Plugin>): (v: Option<ToolbarView>)
    ensures v.None? <==> !visible
    ensures v.Some? ==> |v.value.format| <= 4 && |v.value.insert| <= 3 && |v.value.block| <= 2
    ensures v.Some? ==> var gt := GroupTools(plugins);
      && |v.value.format| == Min(4, |gt.format|) && v.value.format == gt.format[..|v.value.format|]
      && |v.value.insert| == Min(3, |gt.insert|) && v.value.insert == gt.insert[..|v.value.insert|]
      && |v.value.block| == Min(2, |gt.block|) && v.value.block == gt.block[..|v.value.block|]
  {
    if !visible then None
    else
      var gt := GroupTools(plugins);
      Some(ToolbarView(Take(gt.format, 4), Take(gt.insert, 3), Take(gt.block, 2),
                       if ShowMore(gt) then Some(MoreMenu(gt)) else None))
  }

  lemma ToolItemsMember(tools: seq<Plugin>, t: Plugin)
    requires t in tools
    ensures ToolItem(t.id) in ToolItems(tools)
  {
    var i :| 0 <= i < |tools| && tools[i] == t;
    assert ToolItems(tools)[i] == ToolItem(t.id);
  }

  lemma SplitAt(s: seq<Plugin>, n: nat, t: Plugin)
    requires t in s
    ensures t in Take(s, n) || t in s[Min(n, |s|)..]
  {
    assert s == Take(s, n) + s[Min(n, |s|)..];
  }

  /** With the overflow in the menu, every grouped tool can be reached. */
  lemma EveryToolReachable(plugins: seq<Plugin>, t: Plugin)
    requires var gt := GroupTools(plugins); t in gt.format || t in gt.insert || t in gt.block || t in gt.custom
    ensures Reachable(Render(true, plugins).value, t)
  {
    var gt := GroupTools(plugins);
    var v := Render(true, plugins).value;
    var rest := gt.format[Min(4, |gt.format|)..] + gt.insert[Min(3, |gt.insert|)..]
                + gt.block[Min(2, |gt.block|)..] + gt.custom;
    if t in gt.format { SplitAt(gt.format, 4, t); }
    if t in gt.insert { SplitAt(gt.insert, 3, t); }
    if t in gt.block { SplitAt(gt.block, 2, t); }
    if t in rest {
      ToolItemsMember(rest, t);
      assert ShowMore(gt);
    }
  }

  /** The built-in format tools alone overflow the inline row, so the button always shows. */
  lemma ShowMoreAlways(plugins: seq<Plugin>)
    ensures ShowMoreAsWritten(GroupTools(plugins)) && ShowMore(GroupTools(plugins))
  {
    GroupsStartWithDefaults(plugins);
  }

  /**
   * The two renderings have the same inline rows, and every tool the menu as
   * written offers is offered by the corrected menu too.
   */
  lemma RenderExtendsAsWritten(visible: bool, plugins: seq<Plugin>)
    requires visible
    ensures var a, b := RenderAsWritten(visible, plugins).value, Render(visible, plugins).value;
      && a.format == b.format && a.insert == b.insert && a.block == b.block
      && a.more.Some? && b.more.Some?
      && forall t :: t in GroupTools(plugins).custom ==> ToolItem(t.id) in a.more.value && ToolItem(t.id) in b.more.value
  {
    ShowMoreAlways(plugins);
    var gt := GroupTools(plugins);
    var rest := gt.format[Min(4, |gt.format|)..] + gt.insert[Min(3, |gt.insert|)..]
                + gt.block[Min(2, |gt.block|)..] + gt.custom;
    forall t | t in gt.custom
      ensures ToolItem(t.id) in MoreMenuAsWritten(gt) && ToolItem(t.id) in MoreMenu(gt)
    {
      ToolItemsMember(gt.custom, t);
      ToolItemsMember(rest, t);
    }
  }
}
