# borealis view tree — a Dafny model

This project models the core of the borealis UI library's view tree. That core is:

- the `View` base class: state, handler tables for XML attributes, actions, geometry up the parent chain, and show/hide/collapse/expand;
- the flex container `Box`: ordered children, focus search, culling, lifecycle propagation and XML inflation;
- `ScrollingBox` with its internal flat box: content height, the centring scroll target with its clamps, and the scroll state machine;
- the legacy list-based `BoxLayout`: focus memory, add/remove/clear, and the vertical stacking arithmetic.

Inheritance becomes composition. A `Box`, `ScrollingBox` or `BoxLayout` holds its own `View` part in `node`. A child's `parent` is that node. `ScrollingBoxInternalBox` is a `Box` whose `cullingFromParent` flag is set.

Things the model takes as inputs rather than computing:

- **Layout results.** The flex engine's output for each node (left, top, width, height, bottom margin, vertical padding) is stored in `View.layout`.
- **Ancestors.** Functions that recurse through `parent` in C++ (getX, getY, getAlpha, invalidate, the culling bounds) are written over an explicit chain of ancestors (`IsParentChain`).
- **Children's answers.** The children's own `getDefaultFocus` results are the `foci` parameter.
- **Factory results.** Views the XML factory creates are the `created` parameter.

The tween scheduler is kept down to its list of running tweens and the kill/push operations the views call. Number parsing and style/theme lookups are parameters (`Resources`). Floats are `real`.

Modules, one per file:

- `Wrappers` (Option/Result)
- `Animations` (scheduler)
- `XmlAttributes` (string helpers, colours, handler registry, attribute dispatch)
- `Views` (View)
- `Focus` (focus search specification)
- `Boxes` (Box and culling)
- `Scrolling` (ScrollingBox)
- `BoxLayouts` (BoxLayout)

## Model

| member | source | states |
|---|---|---|
| Animations.KillByTag | library/lib/view.cpp:919-927 | every tween carrying the tag is gone, every other running tween is still there, nothing new appears |
| Animations.KillKeepsOnePerTag | library/lib/view.cpp:261-262 | killing a tag keeps running tweens' tags pairwise distinct |
| Animations.KillIdempotent | library/lib/view.cpp:919-927 | killing the same tag twice equals killing it once |
| Animations.RestartKeepsOnePerTag | library/lib/view.cpp:259-285 | kill-then-push keeps tags distinct and the pushed tween is the only one under its tag |
| Animations.Scheduler.constructor | library/lib/view.cpp:919-927 | no tween is running at first |
| Animations.Scheduler.Push | library/lib/view.cpp:279 | a pushed tween is appended and nothing running is touched |
| Animations.KillByTagAppend | library/lib/view.cpp:919-927 | killing a tag from a concatenation kills it from each part, keeping the order |
| Animations.KillByAbsentTag | library/lib/view.cpp:919-927 | killing a tag nothing carries leaves the running list unchanged |
| Animations.Scheduler.Kill | library/lib/view.cpp:261-262 | the running list becomes KillByTag of the old one |
| XmlAttributes.SizeSub | library/lib/view.cpp:31-34 | size_t subtraction: the difference when it fits, otherwise the 64-bit wrap-around |
| XmlAttributes.Find | library/lib/view.cpp:31-34 | std::string::find from pos: first occurrence at or after pos, or none exactly when there is no occurrence |
| XmlAttributes.RFind | library/lib/view.cpp:36-39 | std::string::rfind up to pos: last occurrence at or before pos, or none exactly when there is none |
| XmlAttributes.EndsWith | library/lib/view.cpp:31-34 | true iff suffix is a suffix of data, including when suffix is longer than data (the wrapped start finds nothing) |
| XmlAttributes.StartsWith | library/lib/view.cpp:36-39 | true iff prefix is a prefix of data |
| XmlAttributes.HexDigit | library/lib/view.cpp:1035 | a character has a value iff it is 0-9, a-f or A-F; the value is below 16 and the character is that value's digit in upper or lower case |
| XmlAttributes.HexByte | library/lib/view.cpp:1035 | two characters read as a byte iff both are hex digits, and the byte is 16 times the first digit plus the second |
| XmlAttributes.ParseColorReads | library/lib/view.cpp:1031-1064 | a 7- or 9-character colour is read iff every character after the # is a hex digit; red, green, blue (and alpha for 9 characters) are 16 times the first digit of their pair plus the second; without an alpha pair the colour is opaque (255) |
| XmlAttributes.ParseColor | library/lib/view.cpp:1031-1064 | the sscanf reading of "#RRGGBB" / "#RRGGBBAA" into a colour, or none; its meaning is stated by ParseColorReads and the round trips ParseFormatRgb and ParseFormatRgba |
| XmlAttributes.FormatRgba | library/lib/view.cpp:1048-1051 | the #RRGGBBAA spelling of a colour: 9 characters starting with # |
| XmlAttributes.FormatRgb | library/lib/view.cpp:1032-1035 | the #RRGGBB spelling of a colour: 7 characters starting with # |
| XmlAttributes.HexPairRoundTrip | library/lib/view.cpp:1035 | two formatted hex digits parse back to the byte |
| XmlAttributes.ParseFormatRgba | library/lib/view.cpp:1048-1058 | parsing the #RRGGBBAA spelling gives the colour back |
| XmlAttributes.ParseFormatRgb | library/lib/view.cpp:1032-1042 | parsing the #RRGGBB spelling gives the colour back with alpha 255 |
| XmlAttributes.WithTable | library/lib/view.cpp:1293-1322 | replacing one kind's table leaves the other kinds and the known names alone |
| XmlAttributes.RegisterUpdates | library/lib/view.cpp:1293-1322 | registering binds the name in its kind's table only, leaves other names and kinds unchanged and adds the name to the known set |
| XmlAttributes.Register | library/lib/view.cpp:1293-1322 | one register*XMLAttribute call: the name's entry in its kind's table, and the name made known; stated by RegisterUpdates |
| XmlAttributes.RegisterAll | library/lib/view.cpp:1160-1260 | a run of registrations, made in order; each step is stated by RegisterUpdates, and View.RegisterAttributes's loop is proved to compute it |
| XmlAttributes.CommonRegistrations | library/lib/view.cpp:1160-1260 | the handlers registerCommonAttributes registers in every view, in the source's order |
| XmlAttributes.BoxRegistrations | library/lib/box.cpp:48-101 | the handlers the Box constructor registers on top: axis, direction, justifyContent and the four paddings |
| XmlAttributes.RegisterKeepsKnownCover | library/lib/view.cpp:1293-1322 | every name in any table stays in the known set after a registration |
| XmlAttributes.ApplyXMLAttribute | library/lib/view.cpp:942-1098 | a handled value always went to a handler registered under that name for the kind the branch selects |
| XmlAttributes.ShapeOfChecks | library/lib/view.cpp:953-1083 | a value's shape is decided by the source's checks in the source's order: "auto", ends with "px", ends with "%", starts with "@style/", "#", "@theme/", else a plain number |
| XmlAttributes.ShapeDecidesHandler | library/lib/view.cpp:953-1097 | without a string handler, only a handler of the kind the value's shape calls for is ever called, and none is when that kind has no handler for the name |
| XmlAttributes.RaisesExactly | library/lib/view.cpp:965-1097 | without a string handler, the call raises iff the value's number is out of std::stof's range, or its style metric or theme colour is missing |
| XmlAttributes.PixelBranch | library/lib/view.cpp:965-984 | a "<n>px" value raises iff n is out of range, is refused when n is no number, and only reaches a float handler |
| XmlAttributes.PercentBranch | library/lib/view.cpp:988-1010 | a "<n>%" value raises iff n is out of range, is refused when n is no number, and only reaches a percentage handler |
| XmlAttributes.ReferenceBranch | library/lib/view.cpp:1012-1079 | an "@style/" or "@theme/" value raises iff its key is missing, and only reaches a float or colour handler respectively |
| XmlAttributes.HexBranch | library/lib/view.cpp:1028-1064 | a "#" value never raises and only reaches a colour handler |
| XmlAttributes.PlainNumberBranch | library/lib/view.cpp:1081-1097 | any other value raises iff it is out of range, is refused when it is no number, and only reaches a float handler |
| XmlAttributes.PixelValueGoesToFloatHandler | library/lib/view.cpp:965-979 | a readable "<n>px" value calls the float handler with n, or is refused when there is none |
| XmlAttributes.StyleValueGoesToFloatHandler | library/lib/view.cpp:1012-1025 | an "@style/<key>" value with a known key calls the float handler with the style's metric, or is refused when there is none |
| XmlAttributes.ThemeValueGoesToColorHandler | library/lib/view.cpp:1066-1079 | an "@theme/<key>" value with a known key calls the colour handler with the theme's colour, or is refused when there is none |
| XmlAttributes.PlainNumberGoesToFloatHandler | library/lib/view.cpp:1081-1092 | a readable plain number calls the float handler with its value, or is refused when there is none |
| XmlAttributes.UnreadableNumberRefused | library/lib/view.cpp:965-1097 | a "px", "%" or plain value whose number std::stof cannot read is refused |
| XmlAttributes.StringHandlerWins | library/lib/view.cpp:944-951 | a registered string handler gets the raw value, whatever its shape |
| XmlAttributes.StringHandlerShadows | library/lib/view.cpp:944-951 | with a string handler registered, no other kind of handler is ever called |
| XmlAttributes.AutoValueGoesToAutoHandler | library/lib/view.cpp:953-963 | "auto" is accepted iff an auto handler exists, calls that handler, and never reaches a later branch |
| XmlAttributes.PercentageRange | library/lib/view.cpp:987-1011 | a % value outside [0,100] is refused without a call; inside, the percentage handler gets the stripped number (0 to 100) |
| XmlAttributes.ColorLength | library/lib/view.cpp:1027-1065 | a # value can only be accepted at length 7 or 9 and then goes to the colour handler |
| XmlAttributes.ColorAttributeRoundTrip | library/lib/view.cpp:1027-1065 | a colour written as #RRGGBBAA reaches the colour handler as that exact colour |
| XmlAttributes.RefusalError | library/lib/view.cpp:1285-1291 | a refused attribute is reported as an illegal value iff its name is known, otherwise as unknown, with the tag, name and value |
| XmlAttributes.Message | library/lib/view.cpp:1285-1291 | the texts of the two logic_errors applyXMLAttributes throws, and a handler's own message; which one applies is stated by RefusalError and RegisteredNameIsIllegalValue |
| XmlAttributes.RegisteredNameIsIllegalValue | library/lib/view.cpp:1285-1291 | a name with any registered handler is reported as an illegal value, never as unknown |
| XmlAttributes.HandlerError | library/lib/box.cpp:48-83 | only a string handler (the Box axis, direction and justifyContent parsers) can raise |
| XmlAttributes.ApplyAll | library/lib/view.cpp:1100-1113 | attributes are applied in order, each one handled until the first refusal or raise, which stops the element |
| XmlAttributes.Dispatch | library/lib/view.cpp:1107-1111 | one attribute yields exactly one handler call and no error, or no call and the error that stops the walk; the call is the one applyXMLAttribute made, and an unknown name is reported as a refusal |
| XmlAttributes.ApplyAllStep | library/lib/view.cpp:1105-1112 | resuming the walk at an attribute: a failing one ends it with its error and adds no call, any other adds its call and the walk goes on with the next |
| Views.View.constructor | library/include/borealis/view.hpp:106-167 | a fresh view is visible, fully opaque, expanded, unfocused, not hidden, culled, with no parent, zero borders, no background, auto size and the common attributes registered |
| Views.View.RegisterAttributes | library/lib/view.cpp:1160-1266 | the table gains the registrations in order |
| Views.View.RegisterAttribute | library/lib/view.cpp:1293-1322 | the table becomes Register of the old one |
| Views.View.ApplyXMLAttributes | library/lib/view.cpp:1100-1113 | the outcome is ApplyAll over the element's attributes with the view's tables |
| Views.View.SetWidth | library/lib/view.cpp:581-595 | width is set and a fixed width becomes the minimum width; auto clears the minimum |
| Views.View.SetHeight | library/lib/view.cpp:597-611 | height is set and a fixed height becomes the minimum height; auto clears the minimum |
| Views.View.SetDimensions | library/lib/view.cpp:554-579 | both sizes and both minimums are set as SetWidth and SetHeight do |
| Views.View.SetWidthPercentage | library/lib/view.cpp:613-617 | width becomes the percentage |
| Views.View.SetHeightPercentage | library/lib/view.cpp:619-623 | height becomes the percentage |
| Views.View.SetMargin | library/lib/view.cpp:625-663 | only the margin of the given edge changes |
| Views.View.SetGrow | library/lib/view.cpp:690-694 | grow factor is set |
| Views.View.SetShrink | library/lib/view.cpp:696-700 | shrink factor is set |
| Views.View.SetBorderColor | library/include/borealis/view.hpp:380-383 | only the border colour changes |
| Views.View.SetBorderTop | library/include/borealis/view.hpp:389-392 | only the top border changes |
| Views.View.SetBorderRight | library/include/borealis/view.hpp:398-401 | only the right border changes |
| Views.View.SetBorderBottom | library/include/borealis/view.hpp:407-410 | only the bottom border changes |
| Views.View.SetBorderLeft | library/include/borealis/view.hpp:416-419 | only the left border changes |
| Views.View.SetCulled | library/include/borealis/view.hpp:744-752 | isCulled afterwards answers the value just set |
| Views.View.SetAlpha | library/lib/view.cpp:320-323 | alpha is set |
| Views.View.SetVisibility | library/lib/view.cpp:1268-1283 | GONE takes the view out of the layout, other values keep it in; VISIBLE sends willAppear(false), the others willDisappear(false) |
| Views.View.Collapse | library/lib/view.cpp:259-285 | the collapse tween is killed; without animation the state becomes 0 and the view reads as collapsed, with animation a tween towards 0 is started and the state is untouched |
| Views.View.Expand | library/lib/view.cpp:292-318 | as Collapse, towards 1; without animation the view no longer reads as collapsed |
| Views.View.IsCollapsed | library/lib/view.cpp:287-290 | a view with some height is collapsed exactly when it is drawn (getHeight with collapse) shorter than its full height |
| Views.View.Show | library/lib/view.cpp:809-847 | not hidden and the alpha tween killed; without animation alpha is 1, fadeIn false and the callback has run; with animation alpha starts at 0, fadeIn is set and a tween towards 1 is pending |
| Views.View.Hide | library/lib/view.cpp:854-885 | hidden, not fading in, alpha tween killed; without animation alpha is 0 and the callback has run; with animation a tween towards 0 is pending |
| Views.View.OnFocusGained | library/lib/view.cpp:736-760 | focused; a highlight tween towards 1 is appended, as written: tagged with the highlight value and nothing killed; the parent, if any, is notified with (this, this) |
| Views.View.OnFocusLost | library/lib/view.cpp:770-792 | unfocused; a highlight tween towards 0 is appended as written, and the parent, if any, is notified with (this, this) |
| Views.HighlightPushAsWritten | library/lib/view.cpp:742-754 | the running list gains exactly one tween at its end, on the view's highlight, towards the target, whose tag is not the highlight field's address |
| Views.FocusChangesStackHighlightTweens | library/lib/view.cpp:742-788 | gaining then losing focus leaves both highlight tweens running, since neither push kills the other |
| Views.FocusNoteStartsForwarding | library/lib/view.cpp:758-759 | the note a focused view sends its parent is the first note of the focus propagation up the chain |
| Views.View.Destroy | library/lib/view.cpp:919-927 | the alpha, highlight and collapse address tags are killed |
| Views.View.RegisterAction | library/lib/view.cpp:506-512 | the action list becomes WithAction of the old one |
| Views.View.UpdateActionHint | library/lib/view.cpp:514-520 | the action list becomes WithHint of the old one |
| Views.View.SetActionAvailable | library/lib/view.cpp:522-526 | the action list becomes WithAvailability of the old one |
| Views.View.SetParent | library/lib/view.cpp:528-532 | parent and userdata are stored, and hasParent holds iff the parent is not null |
| Views.View.GetDefaultFocus | library/include/borealis/view.hpp:671-674 | a plain view offers no focus |
| Views.View.GetNextFocus | library/include/borealis/view.hpp:684-687 | a plain view has no next focus in any direction |
| Views.ShowAnimationDuration | library/lib/view.cpp:887-895 | slide animations are refused with the source's message; any other animation yields exactly the style's show duration, refused when missing |
| Views.HighlightRestart | library/lib/view.cpp:736-760 | corrected highlight push (see Findings): the restarted highlight tween is running and every tween stays keyed by its field's address |
| Views.HighlightTweenSurvivesDestroy | library/lib/view.cpp:742 | a highlight tween pushed as written is still running after the destructor's kills |
| Views.DestroyStopsKeyedTweens | library/lib/view.cpp:919-927 | with address-keyed tweens, no alpha, highlight or collapse tween of the view outlives it |
| Views.HighlightRestartStoppedByDestroy | library/lib/view.cpp:919-927 | focus then destruction with the corrected tag leaves no highlight tween of the view |
| Views.IndexOfKey | library/lib/view.cpp:514-526 | the first action bound to the key, or none iff no action is bound to it |
| Views.RegisterActionBinds | library/lib/view.cpp:506-512 | after registering, the key finds exactly the new action; other keys' actions are kept; the list grows only for a new key; distinct keys stay distinct |
| Views.UpdateHintChangesOnlyHint | library/lib/view.cpp:514-520 | only the hint text of the key's action changes; an unbound key changes nothing |
| Views.SetAvailableChangesOnlyAvailability | library/lib/view.cpp:522-526 | only the availability of the key's action changes |
| Views.HasParentIffLonger | library/lib/view.cpp:549-552 | a view has a parent iff its ancestor chain goes on |
| Views.ParentChainTail | library/lib/view.cpp:544-547 | the next chain entry is the parent and the rest is the parent's chain |
| Views.ParentChainCons | library/lib/view.cpp:528-532 | a view attached to a chain's head extends that chain |
| Views.ParentChainUnique | library/lib/view.cpp:544-552 | a view has exactly one ancestor chain |
| Views.InvalidationRoot | library/lib/view.cpp:702-708 | invalidate reaches the one ancestor without a parent, where the layout is solved |
| Views.InvalidationRootShared | library/lib/view.cpp:702-708 | every ancestor invalidates the same root |
| Views.GetXIsSumOfOffsets | library/lib/view.cpp:710-716 | getX is the sum of the layout left offsets along the chain |
| Views.GetYIsSumOfOffsets | library/lib/view.cpp:718-724 | getY is the sum of the layout top offsets along the chain |
| Views.SumCons | library/lib/view.cpp:710-724 | the parent's position plus the local offset is the sum over the longer chain |
| Views.GetX | library/lib/view.cpp:710-716 | the parent's x plus the layout left, up the chain; stated by GetXIsSumOfOffsets |
| Views.GetY | library/lib/view.cpp:718-724 | the parent's y plus the layout top, up the chain; stated by GetYIsSumOfOffsets |
| Views.GetAlpha | library/lib/view.cpp:71-74 | the view's alpha times its parent's effective alpha; stated by GetAlphaBounds |
| Views.GetHeight | library/lib/view.cpp:726-729 | the layout height, scaled by the collapse state when asked; stated by CollapsedHeightBounds and IsCollapsed |
| Views.GetWidth | library/lib/view.cpp:731-734 | the layout width |
| Views.GetAlphaBounds | library/lib/view.cpp:71-74 | with every alpha in [0,1], the effective alpha lies between 0 and the view's own alpha |
| Views.CollapsedHeightBounds | library/lib/view.cpp:726-729 | the collapsed height lies between 0 and the full height, is 0 when fully collapsed and full when expanded |
| Views.ChildFocusNotes | library/lib/view.cpp:907-917 | a focus gain is reported to every ancestor, each with its direct child on the path and the focused view |
| Views.Broadcast | library/lib/box.cpp:251-267 | one notification per child, in child order, each with the event |
| Focus.Step | library/lib/box.cpp:231-237 | LEFT and UP walk backwards, RIGHT and DOWN forwards |
| Focus.Scan | library/lib/box.cpp:239-248 | the first child met in the walk that offers a focus; none only if every child on the way offers none |
| Focus.DefaultFocus | library/lib/box.cpp:198-219 | the default child's focus if in range and offered, else the first offered in order, null iff none is offered |
| Focus.NextFocus | library/lib/box.cpp:221-249 | null across the axis; along it the nearest offered focus beyond the current child, null only when none is offered that way |
| Boxes.ViewRect | library/lib/box.cpp:109-115 | the rectangle at the absolute position, as wide as the layout and as high as the collapsed height |
| Boxes.OutOfBounds | library/lib/box.cpp:132-137 | the four-way culling test of Box::draw; stated by OutOfBoundsIffDisjoint |
| Boxes.Drawn | library/lib/box.cpp:121-141 | whether Box::draw frames a child: not culled, or not out of the culling bounds; stated by DrawnUnfolds |
| Boxes.Framed | library/lib/box.cpp:121-141 | the children Box::draw frames, in order; stated by FramedStep, DrawnIsFramed, FramedIsDrawn and CulledOutsideNotFramed |
| Boxes.OutOfBoundsIffDisjoint | library/lib/box.cpp:124-138 | a child is skipped iff its rectangle shares no point with the bounds (touching edges still draw) |
| Boxes.FramedStep | library/lib/box.cpp:121-141 | one more child adds itself to the framed list iff it is drawn |
| Boxes.DrawnIsFramed | library/lib/box.cpp:121-141 | every drawn child is framed |
| Boxes.DrawnUnfolds | library/lib/box.cpp:122-138 | a child of the box is drawn exactly when it is not culled or its frame meets the culling bounds |
| Boxes.FramedIsDrawn | library/lib/box.cpp:121-141 | every framed view is a drawn child |
| Boxes.CulledOutsideNotFramed | library/lib/box.cpp:121-141 | a culled child outside the bounds is not framed |
| Boxes.Box.constructor | library/lib/box.cpp:40-101 | the axis given, no children, default index 0 and the Box attributes registered on top of the common ones |
| Boxes.Box.Default | library/lib/box.cpp:103-107 | a Box made without an axis is a row |
| Boxes.Box.Internal | library/lib/scrolling_box.cpp:212-217 | the internal box is a column, not culled, forwarding culling to its parent |
| Boxes.Box.AddView | library/lib/box.cpp:145-162 | the view is appended last, parented to this box with its index as userdata, and told willAppear(false) |
| Boxes.Box.SetPadding | library/lib/box.cpp:164-172 | the four paddings are set |
| Boxes.Box.SetPaddingEdge | library/lib/box.cpp:174-196 | only the given edge's padding changes |
| Boxes.Box.GetDefaultFocus | library/lib/box.cpp:198-219 | the loop returns DefaultFocus of the children's answers |
| Boxes.Box.GetNextFocus | library/lib/box.cpp:221-249 | the loop returns null across the axis and NextFocus from the current index otherwise |
| Boxes.Box.CullingBounds | library/lib/box.cpp:109-115 | the box's own rectangle; for the internal box its parent's |
| Boxes.Box.Draw | library/lib/box.cpp:117-143 | the framed children are exactly Framed of the children, in order |
| Boxes.Box.Propagate | library/lib/box.cpp:251-267 | every child gets the event, in order |
| Boxes.Box.WillAppear | library/lib/box.cpp:251-255 | every child gets willAppear(resetState), in order |
| Boxes.Box.WillDisappear | library/lib/box.cpp:257-261 | every child gets willDisappear(resetState), in order |
| Boxes.Box.OnWindowSizeChanged | library/lib/box.cpp:263-267 | every child gets onWindowSizeChanged, in order |
| Boxes.Box.InflateFromXML | library/lib/box.cpp:274-298 | a malformed document or a root not named brls::Box fails with the source's message and changes no children; otherwise the root's attributes are applied and, if all are accepted, every created child is appended in order; the handler calls made are returned, including those made before a failing attribute |
| Boxes.Box.AddViews | library/lib/box.cpp:292-297 | the views are appended in order, each with its index |
| Boxes.Box.HandleXMLTag | library/lib/box.cpp:300-303 | the created view is appended as by AddView |
| Boxes.Box.SetAxis | library/lib/box.cpp:305-310 | the axis is set |
| Boxes.AppendStep | library/lib/box.cpp:292-297 | appending one more view extends the appended prefix |
| Boxes.BroadcastStep | library/lib/box.cpp:251-267 | notifying one more child extends the notifications by it |
| Boxes.RootCheck | library/lib/box.cpp:276-290 | accepted iff the document parsed and its root is named brls::Box, with the source's messages for both failures, including "no element found" for a document without a root |
| Scrolling.Abs | library/lib/scrolling_box.cpp:204 | the magnitude of a number |
| Scrolling.TruncToInt | library/lib/scrolling_box.cpp:192 | conversion to int truncates toward zero |
| Scrolling.SelectionMiddle | library/lib/scrolling_box.cpp:192 | the focused view's y plus half its height, truncated to int; stated by ScrollCentresSelection |
| Scrolling.StackedContentSpan | library/lib/scrolling_box.cpp:155-168 | for children stacked back to back, the content height is the sum of their heights plus bottom margins |
| Scrolling.ClampedOffset | library/lib/scrolling_box.cpp:193-207 | the clamped content offset never lies below the top (never positive) |
| Scrolling.ScrollTarget | library/lib/scrolling_box.cpp:193-207 | the new scrollY is the clamped offset's magnitude as a fraction of the content height; what that fraction guarantees is stated by ScrollTargetInUnit, FittingContentStaysAtTop, TallContentFillsArea and ScrollCentresSelection |
| Scrolling.ScrollTargetInUnit | library/lib/scrolling_box.cpp:193-207 | with a consistent prebake, the new scroll fraction lies in [0,1] |
| Scrolling.FittingContentStaysAtTop | library/lib/scrolling_box.cpp:195-204 | content no taller than the area never scrolls |
| Scrolling.TallContentFillsArea | library/lib/scrolling_box.cpp:195-201 | content taller than the area still reaches the bottom of the area after both clamps |
| Scrolling.ScrollCentresSelection | library/lib/scrolling_box.cpp:189-204 | when no clamp applies, the selection's middle lands on the area's middle |
| Scrolling.FiveRowsScroll | library/lib/scrolling_box.cpp:155-207 | five stacked 100-point rows in a 300-point area: content 500, the last row gives scroll 0.4, the first row gives 0 |
| Scrolling.ScrollingBox.constructor | library/lib/scrolling_box.cpp:46-56 | a column whose only child is the zero-height internal flat box; scroll 0 and no update pending |
| Scrolling.ScrollingBox.AddView | library/lib/scrolling_box.cpp:77-85 | an auto-height view is refused with the source's message; any other view is appended to the flat box; the scrolling box's own children do not change |
| Scrolling.ScrollingBox.HandleXMLTag | library/lib/box.cpp:300-303 | the created view goes through AddView |
| Scrolling.ScrollingBox.PrebakeScrolling | library/lib/scrolling_box.cpp:113-121 | middleY and bottomY become the area's middle and bottom |
| Scrolling.ScrollingBox.StartScrolling | library/lib/scrolling_box.cpp:123-153 | an unchanged value does nothing; otherwise the scroll tween is killed, and then either a tween towards the value is started or scrollY is set |
| Scrolling.ScrollingBox.ScrollAnimationTick | library/lib/scrolling_box.cpp:170-174 | the flat box's top becomes minus scrollY times the content height |
| Scrolling.ScrollingBox.NewScrollInUnit | library/lib/scrolling_box.cpp:184-210 | with a consistent prebake the scroll target is a fraction in [0,1] |
| Scrolling.ContentSpan | library/lib/scrolling_box.cpp:155-168 | getContentHeight on the children's layouts: from the first child's top to the last child's bottom margin, 0 without children; stated by StackedContentSpan |
| Scrolling.ScrollingBox.ContentHeight | library/lib/scrolling_box.cpp:155-168 | the flat box's content height, 0 without children; stated by StackedContentSpan |
| Scrolling.ScrollingBox.TopBoundary | library/lib/scrolling_box.cpp:87-90 | the box's y plus its top padding |
| Scrolling.ScrollingBox.AreaHeight | library/lib/scrolling_box.cpp:92-95 | the box's height without its vertical padding |
| Scrolling.ScrollingBox.NewScroll | library/lib/scrolling_box.cpp:184-204 | updateScrolling's new scrollY from the current state and the focused view; stated by NewScrollInUnit |
| Scrolling.ScrollingBox.UpdateScrolling | library/lib/scrolling_box.cpp:184-210 | false and nothing changed for an empty flat box; otherwise true and the scroll started towards the target, which stays in [0,1] when set directly |
| Scrolling.ScrollingBox.WillAppear | library/lib/scrolling_box.cpp:97-111 | prebakes; with resetState scroll is 0 and an update is pending; children are told willAppear |
| Scrolling.ScrollingBox.Draw | library/lib/scrolling_box.cpp:58-75 | a pending update is retried until the flat box has children; the flat box is always the one framed child |
| Scrolling.ScrollingBox.RetryScrolling | library/lib/scrolling_box.cpp:60-62 | a pending update runs and is cleared once the flat box has children, moving the offset to the newly computed scroll; otherwise scroll and tweens are untouched and the flag stays |
| Scrolling.ScrollingBox.FlatBoxAlwaysFramed | library/lib/scrolling_box.cpp:58-75 | the flat box is framed whatever the bounds, since it is never culled |
| Scrolling.ScrollingBox.FlatBoxCullsToScrollingBox | library/lib/scrolling_box.cpp:219-224 | the flat box's culling bounds are the scrolling box's own |
| Scrolling.ScrollingBox.OnChildFocusGained | library/lib/scrolling_box.cpp:176-182 | scrollY itself is untouched; with children in the flat box the scroll tween is restarted towards the focused view's target (nothing is restarted when already there, or without children); the gain is passed to the parent, if any, naming this box as the direct child |
| BoxLayouts.BoxLayoutChild.constructor | library/lib/box_layout.cpp:306-308 | an entry holds the view and its fill flag |
| BoxLayouts.EntryIndex | library/lib/box_layout.cpp:125 | the position of a list entry: that entry, with no earlier occurrence |
| BoxLayouts.EntryIndexUnique | library/lib/box_layout.cpp:340-353 | in a list of distinct entries the index of the i-th entry is i |
| BoxLayouts.EntryViews | library/lib/box_layout.cpp:161-166 | the views of the entries, in list order |
| BoxLayouts.DistinctRemove | library/lib/box_layout.cpp:138-152 | erasing an entry keeps the entries distinct |
| BoxLayouts.RingStep | library/lib/box_layout.cpp:126-132 | one std::next step on the list's ring: past the last entry comes end(), before the first entry comes end() |
| BoxLayouts.WalkRing | library/lib/box_layout.cpp:125-134 | stepping around the list's ring from the current entry finds the same answer as Scan from its neighbour, or null on reaching end() |
| BoxLayouts.RingStepScans | library/lib/box_layout.cpp:126-133 | one ring step is one Scan step: the ring's next slot is where Scan goes on, end() is where it leaves the list |
| BoxLayouts.AsSigned | library/lib/box_layout.cpp:195 | the int value of an unsigned 32-bit quantity, congruent modulo 2^32 |
| BoxLayouts.Shown | library/lib/box_layout.cpp:205-206 | the children that are not hidden |
| BoxLayouts.VisibleAdvanceOfShown | library/lib/box_layout.cpp:170-209 | entriesHeight is the stacked advance of the non-hidden children alone |
| BoxLayouts.NoHiddenVisibleIsTotal | library/lib/box_layout.cpp:170-209 | with nothing hidden, entriesHeight equals the whole advance |
| BoxLayouts.CollapsedAdvance | library/lib/box_layout.cpp:202-208 | a collapsed child advances by its height alone, without spacing |
| BoxLayouts.TotalAdvanceMonotone | library/lib/box_layout.cpp:170-209 | with non-negative spacing, later children never sit above earlier ones |
| BoxLayouts.TotalAdvanceStep | library/lib/box_layout.cpp:170-209 | one more child advances the total by that child's advance |
| BoxLayouts.BoxLayout.constructor | library/lib/box_layout.cpp:33-38 | the orientation given, no children, default and original default focus both the given index |
| BoxLayouts.BoxLayout.SetSpacing | library/lib/box_layout.cpp:53-57 | spacing is set |
| BoxLayouts.BoxLayout.SetMargins | library/lib/box_layout.cpp:64-71 | the four margins are set |
| BoxLayouts.BoxLayout.SetRememberFocus | library/lib/box_layout.cpp:396-399 | rememberFocus is set |
| BoxLayouts.BoxLayout.AddView | library/lib/box_layout.cpp:304-323 | one new entry is appended last, the view is parented with that entry as userdata and told willAppear(resetState) |
| BoxLayouts.BoxLayout.RemoveViewAt | library/lib/box_layout.cpp:154-159 | the entry at the index is erased, its view told willDisappear(true), and returned unless freed |
| BoxLayouts.BoxLayout.RemoveView | library/lib/box_layout.cpp:138-152 | the entry is erased and nothing else, its view told willDisappear(true), and returned unless freed |
| BoxLayouts.BoxLayout.Clear | library/lib/box_layout.cpp:161-166 | no children are left and every removed view was told willDisappear(true), in order |
| BoxLayouts.BoxLayout.GetDefaultFocus | library/lib/box_layout.cpp:84-103 | the loop returns DefaultFocus of the children's answers |
| BoxLayouts.BoxLayout.GetNextFocus | library/lib/box_layout.cpp:105-136 | the walk returns null across the axis and NextFocus from the current entry's index otherwise |
| BoxLayouts.BoxLayout.OnChildFocusGained | library/lib/box_layout.cpp:340-353 | childFocused is set; with rememberFocus the default index becomes the index of the focused child's entry |
| BoxLayouts.BoxLayout.OnChildFocusLost | library/lib/box_layout.cpp:355-360 | childFocused is cleared |
| BoxLayouts.BoxLayout.Propagate | library/lib/box_layout.cpp:374-394 | every child view gets the event, in list order |
| BoxLayouts.BoxLayout.WillAppear | library/lib/box_layout.cpp:374-378 | every child view gets willAppear(resetState), in order |
| BoxLayouts.BoxLayout.WillDisappear | library/lib/box_layout.cpp:380-388 | every child view gets willDisappear(resetState); with rememberFocus the original default focus is restored |
| BoxLayouts.BoxLayout.OnWindowSizeChanged | library/lib/box_layout.cpp:390-394 | every child view gets onWindowSizeChanged, in order |
| BoxLayouts.BoxLayout.LayoutVertical | library/lib/box_layout.cpp:170-216 | each child's top is y + marginTop plus the advance of the children before it; entriesHeight is the advance of the non-hidden children, as a 32-bit unsigned value |

## Left out

- `View::AUTO` is `NAN` in the header, so every `== View::AUTO` test in the size and margin setters is false as written. The model follows the documented intent instead: `Dimension.Auto` is an explicit value.
- The header says percentage handlers receive 0.0 to 1.0. The code passes the number as written (0 to 100), and the model follows the code.
- Views.View.SetWidth: requires a non-percentage value, since percentages have their own setter. SetHeight and SetMargin carry the same precondition.
- The flex engine is not modelled. This covers solving, and the style setters beyond recording the value. The layout a node ends up with is an input (`View.layout`), and `invalidate` is modelled as reaching the root that would be solved.
- Drawing is not modelled: NanoVG, highlights, backgrounds, borders, wireframes, the shake animation and the scissor in ScrollingBox::draw. `draw`/`frame` are reduced to which children get framed.
- Tweens are not ticked, and durations, easing and completion callbacks are not modelled. An animated show, hide, collapse, expand or scroll is modelled as the tween it starts. Only the non-animated paths reach their final state.
- Floats are `real`: no rounding, no NaN, no infinities.
- `std::stof`, the style and theme tables and the application's view factory are parameters. `createFromXMLElement`, `createFromXMLFile` and `createFromXMLResource` are not modelled; their results are inputs.
- Colours are parsed as strict two-digit hex. `sscanf("%02hhx")` also accepts shorter or signed digit groups.
- `Box::setDirection` and `Box::setJustifyContent` only pass values to the flex engine and are not modelled. Their XML string handlers are modelled as accepting or raising.
- A child's `parentUserdata` is a value (`Position(index)` or `ListEntry(entry)`) instead of heap memory. Destructors, `malloc` and `free` are not modelled beyond the tween kills in `~View`.
- Box::getChildren and the reference it returns: callers read `children` directly.
- The base `View::willAppear`/`willDisappear` are empty. A view's reaction to a lifecycle notification is not modelled; containers are modelled by the notifications they send.
- The focus event (`focusEvent.fire`), the hints event, logging and printf debugging are not modelled. OnFocusGained/OnFocusLost return the note they send to the parent instead of calling it; its propagation is `ChildFocusNotes`.
- Views.View.OnFocusGained: requires a non-negative highlight value, because converting a negative float to `uintptr_t` for the tag is undefined in C++. OnFocusLost carries the same precondition. The highlight duration and easing are not modelled.
- BoxLayout's horizontal layout, gravity, `setBoundaries`, the x/width/height of each placement and the height update at box_layout.cpp:215 are not modelled. The vertical branch yields the tops and `entriesHeight` only.
- box_layout.hpp is not part of this model. BoxLayout's member defaults are taken as 0 or false, and `getCustomSpacing` is an input (`ChildMetrics.customSpacing`).
- BoxLayouts.BoxLayout.LayoutVertical: `yAdvance` is an int, and its overflow past 2^31 is not modelled. The tops are unbounded integers.
- Each child's height is taken as the unsigned value the code converts `getHeight()` to (`ChildMetrics.height`). The conversion from float is not modelled.
- BoxLayout::removeView reads the entry after `erase`, a use after free. The model removes the entry and keeps the view it held.
- Stepping `std::next(it, -1)` from `begin()` is undefined by the C++ standard. The model follows the usual sentinel ring of `std::list` (`RingStep`), so a backward walk from the first entry reaches `end()` and returns null.
- View::onChildFocusGained(View*) with one argument, which BoxLayout calls, is not in this View. BoxLayout's forwarding to its parent is not modelled.
- Scrolling.TruncToInt: the selection middle is truncated to int as written. `abs` on a float is modelled as the real magnitude, even where an integer overload might have been picked.
- Scrolling.ScrollingBox.UpdateScrolling: requires a positive content height when the flat box has children, since the source divides by it.
- Boxes.Box.AddView: requires a view that has no parent yet, which the flex engine demands of an inserted node.

## Findings

| source | as written | input that shows it | evidently intended | confidence | as-written member | corrected member |
|---|---|---|---|---|---|---|
| library/lib/view.cpp:742, 776, 924 | onFocusGained/onFocusLost tag the highlight tween with `(uintptr_t)this->highlightAlpha`, the field's value, and push without killing; the destructor kills the tag `&this->highlightAlpha` | focus a view (highlightAlpha 0, tag 0) and destroy it: the tween tagged 0 survives and keeps writing to the freed field | tag with the field's address and kill before pushing, as collapse, expand, show and hide do | not executed | Views.HighlightTweenSurvivesDestroy | Views.HighlightRestartStoppedByDestroy |
