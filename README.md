# umya-spreadsheet: streaming XML hydration and part numbering, in Dafny

umya-spreadsheet reads and writes `.xlsx` workbooks. This project models the parts of it that
turn a flat stream of XML parse events into in-memory objects and back again. It also models the
two places where the writer hands out identifiers.

- **Worksheet reader** (`src/reader/xlsx/worksheet.rs`)
  - The top-level `read` loop covers conditional formatting, the auto filter, the drawing and
    legacy-drawing relationship ids and the cell hyperlinks.
  - `get_conditional_formatting` builds one `Conditional` per `cfRule`, in document order. It
    resolves `dxfId` through the differential formats at once and resets the rule after each
    push.
  - `get_cfvo` pairs the k-th colour with the k-th value object.
  - `get_hyperlink` reads the mandatory `ref`, then either `location` or the mandatory `r:id`.
- **Hydrators.** Each struct reads itself from the stream, up to its own end tag, with
  `set_attributes`, and writes itself back with `write_to`.
  - Containers: `MarkerType` (the `xdr:from`/`xdr:to` anchor), `DataBar`, `BackWall` and
    `SeriesText`.
  - Attribute-only elements: `SupplementalFont`, `AutoLabeled`, `AxisId` and `LegendPosition`.
  - The tri-state `TrueFalseBlankValue`.
- **Identifier allocation**
  - The legacy-drawing (VML) writer gives shape ids from `drawing_id * 1000 + 25` on. OLE shapes
    get relationship numbers 1, 2, … and comment shapes get 0.
  - The package writer keeps three counters across its sheet loop: chart, drawing and comment.
    It calls every part writer in a fixed order.

How the model is put together:

- The tokenizer becomes `Xml.Event = Start | Empty | Text | End | Eof`.
- A reader takes the events and the position just after its own start tag. It returns the new
  value and the position just after its own end tag, or a failure. A position past the end
  reads as end-of-stream.
- A writer returns a sequence of events.
- Each `panic!`, `unwrap` and debug-build arithmetic overflow becomes an explicit `Err`.
- A struct whose fields the source updates in place is a `class`. Its `set_attributes` loop is a
  `method` with a `while` loop. The method is proved equal to a recursive specification
  function, and the reading properties are lemmas about that function.
- The tokenizer trims text (src/reader/xlsx/worksheet.rs:35): `Xml.Tokenized` maps written
  events to what a reader meets, trimming each text and dropping one that trims to nothing.
- Most helpers whose code is not part of this model are an opaque type or an uninterpreted
  function in module `Collaborators`, with nothing assumed beyond its signature. This covers
  `Color`, `ConditionalFormatValueObject`, `Thickness`, `ShapeProperties`, `Shape::write_to`,
  the coordinate helpers, the value wrappers' string conversions, the differential-format
  lookup and the delegated readers.
- Three helpers are modelled concretely instead, with the assumptions listed under
  "## Left out": `StringValue` (as an optional string), the defaults of `BooleanValue` and
  `UInt32Value`, and `get_cell_mut`'s lookup of a hyperlink's cell (as a map keyed by the
  reference text).

Files:

- `xml.dfy`: the event stream and the errors.
- `numeric.dfy`: fixed-width integers with Rust's `parse` and `to_string`.
- `collaborators.dfy`: the opaque helpers.
- One file per modelled source file: `conditional_formatting.dfy` and `worksheet_reader.dfy`,
  `marker_type.dfy`, `data_bar.dfy`, `back_wall.dfy`, `series_text.dfy`, `supplemental_font.dfy`,
  `string_value.dfy`, `auto_labeled.dfy`, `axis_id.dfy`, `legend_position.dfy`,
  `true_false_blank_value.dfy`, `vml_drawing.dfy` and `package_writer.dfy`.

## Model

| member | source | states |
|---|---|---|
| Xml.TrimStart | src/reader/xlsx/worksheet.rs:35 | the rest of the text after its leading white space, all of which is space, tab, carriage return or line feed |
| Xml.TrimEnd | src/reader/xlsx/worksheet.rs:35 | the text before its trailing white space, all of which is white space |
| Xml.Trim | src/reader/xlsx/worksheet.rs:35 | the trimmed text has no white space at either end, and a text that has none is unchanged |
| Xml.TokenizedTextsTrimmed | src/reader/xlsx/worksheet.rs:35 | every text the trimming tokenizer hands on is non-empty and trimmed, and every other event it hands on was written |
| Xml.TokenizedAppend | src/reader/xlsx/worksheet.rs:35 | tokenizing a concatenation tokenizes each part |
| Xml.TokenizedTextNode | src/reader/xlsx/worksheet.rs:35 | a written text comes out as its trimmed text, or as no event when that is empty |
| ConditionalFormatting.LastAttribute | src/reader/xlsx/worksheet.rs:357-373 | the value of the last attribute with the key, or None exactly when no attribute has it, because later attributes overwrite earlier ones in the attribute loop |
| ConditionalFormatting.LastAttributeAppend | src/reader/xlsx/worksheet.rs:357-373 | one more attribute wins if it has the key and otherwise changes nothing |
| ConditionalFormatting.ReadCfvoAttributes | src/reader/xlsx/worksheet.rs:357-373 | the attribute loop of a self-closing `cfvo` yields the last `type` (blank if none) and the last `value`, starting from blank for every `cfvo` |
| ConditionalFormatting.CfvoFrom | src/reader/xlsx/worksheet.rs:341-397 | a successful `get_cfvo` stops just after a `dataBar`/`colorScale`/`iconSet` end tag and only appends to the entries it started with |
| ConditionalFormatting.GetCfvo | src/reader/xlsx/worksheet.rs:341-397 | the event loop of `get_cfvo` returns exactly what `CfvoFrom` gives from an empty state |
| ConditionalFormatting.CfvoStep | src/reader/xlsx/worksheet.rs:357-373 | a self-closing `cfvo` appends its (type, value) and moves on by one event |
| ConditionalFormatting.CfvoRun | src/reader/xlsx/worksheet.rs:357-373 | a run of self-closing `cfvo` elements appends their fields in document order |
| ConditionalFormatting.ColorStep | src/reader/xlsx/worksheet.rs:374-382 | a `color` with no value object at its own index fails with `MissingCfvo`; otherwise it appends an entry carrying that value object's type and value and the themed colour |
| ConditionalFormatting.ColorRun | src/reader/xlsx/worksheet.rs:374-382 | a run of colours pairs the k-th colour with the k-th value object, or fails as soon as the colours outnumber the value objects |
| ConditionalFormatting.PairCfvos | src/reader/xlsx/worksheet.rs:374-382 | fails exactly when there are more colours than value objects; otherwise gives one entry per colour, the k-th carrying the k-th value object's type and value and the k-th colour |
| ConditionalFormatting.ReadScaleAt | src/reader/xlsx/worksheet.rs:341-397 | a list laid out as value objects, then colours, then its end tag reads as `PairCfvos` and stops right after the end tag |
| ConditionalFormatting.ReadScale | src/reader/xlsx/worksheet.rs:341-397 | reading a written `dataBar`/`colorScale`/`iconSet` list, whatever follows it, gives `PairCfvos` and the position just after the list |
| ConditionalFormatting.NoColorsNoEntries | src/reader/xlsx/worksheet.rs:374-391 | a list without colours, such as an `iconSet`, reads as an empty list whatever the number of value objects: extra value objects are dropped |
| ConditionalFormatting.ApplyRuleAttribute | src/reader/xlsx/worksheet.rs:229-261 | an attribute other than `dxfId`, `priority`, `percent`, `bottom` and `rank` never fails; a failure is `InvalidNumber` of a text that does not parse as usize |
| ConditionalFormatting.ReadRuleAttributes | src/reader/xlsx/worksheet.rs:229-261 | the attribute loop of a `cfRule` computes `ApplyRuleAttributes`: the attributes are applied in order and the first bad number fails |
| ConditionalFormatting.ApplyRuleAttributesPrefixErr | src/reader/xlsx/worksheet.rs:242-261 | a failure on a prefix of the attributes is the failure of the whole attribute list |
| ConditionalFormatting.RulesFrom | src/reader/xlsx/worksheet.rs:218-339 | a successful read stops just after `</conditionalFormatting>` and only appends to the rules it started with |
| ConditionalFormatting.GetConditionalFormatting | src/reader/xlsx/worksheet.rs:218-339 | the event loop returns exactly what `RulesFrom` gives from no rules and the default rule |
| ConditionalFormatting.ScaleStep | src/reader/xlsx/worksheet.rs:309-320 | a started list inside a rule sets the rule's data type to the list's name and its value objects to `PairCfvos`, or fails with `PairCfvos`'s failure |
| ConditionalFormatting.ReadStartedRule | src/reader/xlsx/worksheet.rs:272-330 | a started `cfRule` holding a list pushes the rule built from its attributes and its list at `</cfRule>`, and goes on from the default rule |
| ConditionalFormatting.ReadRule | src/reader/xlsx/worksheet.rs:229-330 | any written `cfRule`, self-closing or started, pushes `RuleOf` built from the default rule and goes on from the default rule; if `RuleOf` fails, the read fails with the same error |
| ConditionalFormatting.ReadRunEnd | src/reader/xlsx/worksheet.rs:324-325 | `</conditionalFormatting>` ends the read with the rules gathered so far |
| ConditionalFormatting.ReadRuleRunCons | src/reader/xlsx/worksheet.rs:226-331 | reading a run of rules is reading its first rule and then the rest |
| ConditionalFormatting.ReadRuleRun | src/reader/xlsx/worksheet.rs:226-331 | a laid-out run of rules reads as `RulesOf` appended to the rules already gathered, and stops after `</conditionalFormatting>` |
| ConditionalFormatting.ReadFormatting | src/reader/xlsx/worksheet.rs:218-339 | reading back any written run of rules gives `RulesOf` (the rules, or the first rule's failure) and the position just after `</conditionalFormatting>` |
| ConditionalFormatting.RulesOfInOrder | src/reader/xlsx/worksheet.rs:226-331 | on success there is one rule per `cfRule` and the i-th is built from the i-th `cfRule` alone, in document order and starting from the default |
| ConditionalFormatting.RulesOfFirstFailure | src/reader/xlsx/worksheet.rs:226-331 | a failure is that of the first failing `cfRule`, and every `cfRule` before it succeeds |
| ConditionalFormatting.DxfIdResolved | src/reader/xlsx/worksheet.rs:236-241 | a decimal `dxfId` stores the differential style at that index on the rule |
| ConditionalFormatting.BadNumberFails | src/reader/xlsx/worksheet.rs:242-261 | a numeric attribute whose text does not parse fails the rule with that text, provided the attributes before it succeed |
| ConditionalFormatting.BadNumberStopsRead | src/reader/xlsx/worksheet.rs:229-303 | the read stops at such a `cfRule`, self-closing or started, with that failure |
| ConditionalFormatting.PriorityRuleOf | src/reader/xlsx/worksheet.rs:242-261 | a `cfRule` carrying only a decimal `priority` is the default rule with that priority |
| ConditionalFormatting.PriorityRulesOf | src/reader/xlsx/worksheet.rs:226-331 | rules carrying only priorities build the default rule once per priority, in the given order |
| ConditionalFormatting.PrioritiesKeepDocumentOrder | src/reader/xlsx/worksheet.rs:218-339 | the reader returns the rules in document order with their own priorities; it does not sort them |
| ConditionalFormatting.UnsortedPrioritiesExample | src/reader/xlsx/worksheet.rs:218-339 | priorities 30, 10, 20 come back as 30, 10, 20 |
| WorksheetReader.GetHyperlink | src/reader/xlsx/worksheet.rs:399-414 | fails exactly when `ref` is missing, or when both `location` and `r:id` are missing, naming the missing attribute; with `location` the url is the location, the location flag is set and the relationship id is empty; otherwise the relationship id is `r:id` and the hyperlink is the default |
| WorksheetReader.RecordedRelationship | src/reader/xlsx/worksheet.rs:187-195 | a non-empty relationship id only comes from a hyperlink without `location`, and it is that hyperlink's `r:id` |
| WorksheetReader.SheetStep | src/reader/xlsx/worksheet.rs:49-215 | one turn of the `read` loop always moves forward within the stream |
| WorksheetReader.StepExtends | src/reader/xlsx/worksheet.rs:101-195 | one turn of the loop only appends conditional-formatting sets and hyperlink relationships and never drops a cell hyperlink; it records a relationship only with a non-empty id, for a cell that got a hyperlink |
| WorksheetReader.ReadExtends | src/reader/xlsx/worksheet.rs:49-215 | the whole loop keeps what it started with and adds sets and relationships in document order; every relationship it records has a non-empty id and a cell hyperlink |
| WorksheetReader.ExtendsTrans | src/reader/xlsx/worksheet.rs:49-215 | extending is transitive, so the step property carries over to the whole loop |
| WorksheetReader.LocationRecordsNoRelationship | src/reader/xlsx/worksheet.rs:187-195 | a hyperlink with `location` sets the cell's hyperlink to that target and records no relationship |
| WorksheetReader.RelationshipRecorded | src/reader/xlsx/worksheet.rs:187-195 | a hyperlink without `location` whose `r:id` is not empty sets the default hyperlink on the cell and records `(ref, r:id)` after the relationships already recorded |
| WorksheetReader.ReadConditionalSet | src/reader/xlsx/worksheet.rs:101-111 | a started `conditionalFormatting` adds one set with its `sqref` and its rules in document order, and the loop resumes after its end tag; a failing rule fails the read |
| WorksheetReader.MissingMandatoryAttributeFails | src/reader/xlsx/worksheet.rs:101-186 | a `conditionalFormatting` without `sqref`, an `autoFilter` without `ref`, or a `drawing` or `legacyDrawing` without `r:id` fails the read with `MissingAttribute` |
| WorksheetReader.Worksheet.constructor | src/reader/xlsx/worksheet.rs:42-47 | a new sheet has no conditional-formatting sets, no auto filter and no cell hyperlinks |
| WorksheetReader.Read | src/reader/xlsx/worksheet.rs:20-216 | the loop fills the new sheet's fields and returns the drawing id, the legacy-drawing id and the hyperlink relationships, all as `SheetFrom` gives them from an empty state, or fails with its failure |
| MarkerTypes.ReadMarkerFrom | src/structs/drawing/spreadsheet/marker_type.rs:86-119 | a successful read stops just after `</xdr:from>` or `</xdr:to>` |
| MarkerTypes.StopsAtFirstEnd | src/structs/drawing/spreadsheet/marker_type.rs:109-113 | a successful read passes over no `</xdr:from>`, `</xdr:to>` or end of stream, so it stops at the first anchor end tag |
| MarkerTypes.SkipsPassive | src/structs/drawing/spreadsheet/marker_type.rs:93-115 | events other than the six end tags and end of stream change no field; the text seen afterwards is their last text, or the earlier text when they hold none |
| MarkerTypes.FieldTakesLastText | src/structs/drawing/spreadsheet/marker_type.rs:93-108 | each of the four field end tags parses the last text before it (u32 for column and row, i32 for the offsets), even when that text belongs to an earlier field: a parse sets that field and the read goes on, a failure fails the read with that text |
| MarkerTypes.EmptyFieldRereadsEarlierText | src/structs/drawing/spreadsheet/marker_type.rs:93-110 | in `<xdr:col>c</xdr:col><xdr:row></xdr:row></xdr:from>` the empty row re-reads the column's text, so column and row both become c |
| MarkerTypes.OpenStep | src/structs/drawing/spreadsheet/marker_type.rs:93-95 | a start tag is skipped and a text replaces the last text seen |
| MarkerTypes.ColStep | src/structs/drawing/spreadsheet/marker_type.rs:97-99 | `<xdr:col>text</xdr:col>` with a u32 text sets the column alone |
| MarkerTypes.ColOffStep | src/structs/drawing/spreadsheet/marker_type.rs:100-102 | `<xdr:colOff>text</xdr:colOff>` with an i32 text sets the column offset alone |
| MarkerTypes.RowStep | src/structs/drawing/spreadsheet/marker_type.rs:103-105 | `<xdr:row>text</xdr:row>` with a u32 text sets the row alone |
| MarkerTypes.RowOffStep | src/structs/drawing/spreadsheet/marker_type.rs:106-108 | `<xdr:rowOff>text</xdr:rowOff>` with an i32 text sets the row offset alone |
| MarkerTypes.EndStep | src/structs/drawing/spreadsheet/marker_type.rs:109-110 | the anchor's end tag ends the read with the fields as they stand |
| MarkerTypes.NonNumericFieldFails | src/structs/drawing/spreadsheet/marker_type.rs:97-108 | the end tag of column or row with text that is not a u32, or of either offset with text that is not an i32, fails the read with that text |
| MarkerTypes.MarkerEvents | src/structs/drawing/spreadsheet/marker_type.rs:130-155 | the written anchor is 14 events, opened and closed by the tag |
| MarkerTypes.ReadColField | src/structs/drawing/spreadsheet/marker_type.rs:86-119 | in a written anchor the column element sets the column to the written value |
| MarkerTypes.ReadColOffField | src/structs/drawing/spreadsheet/marker_type.rs:86-119 | in a written anchor the column-offset element sets the column offset to the written value |
| MarkerTypes.ReadRowField | src/structs/drawing/spreadsheet/marker_type.rs:86-119 | in a written anchor the row element sets the row to the written value |
| MarkerTypes.ReadRowOffField | src/structs/drawing/spreadsheet/marker_type.rs:86-119 | in a written anchor the row-offset element sets the row offset to the written value |
| MarkerTypes.ReadLaidOut | src/structs/drawing/spreadsheet/marker_type.rs:86-155 | a written anchor reads back as its four fields and the read stops after its 14 events |
| MarkerTypes.ReadOfWrite | src/structs/drawing/spreadsheet/marker_type.rs:86-155 | reading back what `write_to_from`/`write_to_to` wrote restores col, col_off, row and row_off, whatever the fields held and whatever follows |
| MarkerTypes.Shifted | src/structs/drawing/spreadsheet/marker_type.rs:166-167 | `helper(index + 1, root, offset) - 1` succeeds exactly when neither the `+ 1` nor the `- 1` overflows u32, and then is one less than the helper's result |
| MarkerTypes.MarkerType.constructor | src/structs/drawing/spreadsheet/marker_type.rs:10-16 | the default anchor has all four fields zero |
| MarkerTypes.MarkerType.SetCol | src/structs/drawing/spreadsheet/marker_type.rs:24-27 | changes the column and nothing else |
| MarkerTypes.MarkerType.SetColOff | src/structs/drawing/spreadsheet/marker_type.rs:35-38 | changes the column offset and nothing else |
| MarkerTypes.MarkerType.SetRow | src/structs/drawing/spreadsheet/marker_type.rs:52-55 | changes the row and nothing else |
| MarkerTypes.MarkerType.SetRowOff | src/structs/drawing/spreadsheet/marker_type.rs:63-66 | changes the row offset and nothing else |
| MarkerTypes.MarkerType.AddColOff | src/structs/drawing/spreadsheet/marker_type.rs:41-44 | adds to the column offset and leaves the rest; fails with `Overflow`, changing nothing, exactly when the sum leaves i32 |
| MarkerTypes.MarkerType.AddRowOff | src/structs/drawing/spreadsheet/marker_type.rs:69-72 | adds to the row offset and leaves the rest; fails with `Overflow`, changing nothing, exactly when the sum leaves i32 |
| MarkerTypes.MarkerType.GetCoordinate | src/structs/drawing/spreadsheet/marker_type.rs:75-77 | the coordinate helper applied to (col + 1, row + 1); fails exactly when either `+ 1` overflows u32 |
| MarkerTypes.MarkerType.SetCoordinate | src/structs/drawing/spreadsheet/marker_type.rs:80-84 | stores the helper's 1-based column and row minus one, leaving the offsets; a missing or zero column fails before anything changes, and a missing or zero row fails after the column is stored |
| MarkerTypes.MarkerType.SetAttributes | src/structs/drawing/spreadsheet/marker_type.rs:86-119 | the event loop leaves the anchor as `ReadMarkerFrom` reads it from the old fields and returns its position, or fails as it fails |
| MarkerTypes.MarkerType.WriteTo | src/structs/drawing/spreadsheet/marker_type.rs:130-155 | writes `MarkerEvents` of the current fields under the given tag |
| MarkerTypes.MarkerType.WriteToFrom | src/structs/drawing/spreadsheet/marker_type.rs:121-123 | writes the anchor under `xdr:from` |
| MarkerTypes.MarkerType.WriteToTo | src/structs/drawing/spreadsheet/marker_type.rs:126-128 | writes the anchor under `xdr:to` |
| MarkerTypes.MarkerType.AdjustmentInsertCoordinate | src/structs/drawing/spreadsheet/marker_type.rs:159-168 | column and row each go through the 1-based insert helper on their own, via `Shifted`, and the offsets are unchanged; a failing column changes nothing, and a failing row keeps the new column |
| MarkerTypes.MarkerType.AdjustmentRemoveCoordinate | src/structs/drawing/spreadsheet/marker_type.rs:171-180 | column and row each go through the 1-based remove helper on their own, via `Shifted`, and the offsets are unchanged; a failing column changes nothing, and a failing row keeps the new column |
| MarkerTypes.MarkerType.IsRemoveCoordinate | src/structs/drawing/spreadsheet/marker_type.rs:183-192 | true exactly when the column test or the row test is true; the row is only looked at (and its `+ 1` only checked) when the column test is false |
| Numeric.NatToDecimal | src/structs/drawing/spreadsheet/marker_type.rs:136-146 | `to_string` of an unsigned number is a non-empty run of digits whose value is the number |
| Numeric.IntToDecimal | src/structs/drawing/spreadsheet/marker_type.rs:141-151 | `to_string` of a signed number is non-empty and starts with `-` exactly when the number is negative |
| Numeric.ParseUnsigned | src/structs/drawing/spreadsheet/marker_type.rs:97-105 | `parse` into an unsigned type only gives values of that type |
| Numeric.ParseSigned | src/structs/drawing/spreadsheet/marker_type.rs:100-108 | `parse` into a signed type only gives values of that type |
| Numeric.ParseUnsignedOfDecimal | src/structs/drawing/spreadsheet/marker_type.rs:97-105 | parsing what `to_string` wrote gives back every value of an unsigned type |
| Numeric.ParseSignedOfDecimal | src/structs/drawing/spreadsheet/marker_type.rs:100-108 | parsing what `to_string` wrote gives back every value of a signed type |
| Numeric.ParseUnsignedRejects | src/structs/drawing/spreadsheet/marker_type.rs:97-105 | the empty text, a lone `+` and any other text that is not all digits are rejected |
| DataBars.DataBarFrom | src/structs/data_bar.rs:44-75 | a successful read stops just after `</dataBar>`; the only failure is the missing end tag |
| DataBars.CfvosIn | src/structs/data_bar.rs:52-62 | the value objects a stretch of events contributes are at most one per event |
| DataBars.ColorsIn | src/structs/data_bar.rs:52-62 | the colours a stretch of events contributes are at most one per event |
| DataBars.Cfvos | src/structs/data_bar.rs:52-57 | one value object per self-closing `cfvo`, each read from its own attributes |
| DataBars.Colors | src/structs/data_bar.rs:57-62 | one colour per self-closing `color`, each read from its own attributes |
| DataBars.Step | src/structs/data_bar.rs:52-70 | any event other than `</dataBar>` and end-of-stream moves on by one and adds only what that event contributes |
| DataBars.ReadCollects | src/structs/data_bar.rs:52-70 | a successful read appends to the lists it started with every `cfvo` and every `color` before `</dataBar>`, each to its own list in document order, without pairing them or checking their counts |
| DataBars.ReadWithoutEndFails | src/structs/data_bar.rs:63-70 | with no `</dataBar>` left the read fails with the missing end tag |
| DataBars.ReadCfvoRun | src/structs/data_bar.rs:52-57 | a run of `cfvo` elements is appended in order |
| DataBars.ReadColorRun | src/structs/data_bar.rs:57-62 | a run of `color` elements is appended in order |
| DataBars.DataBarEvents | src/structs/data_bar.rs:77-97 | the written element opens with `dataBar` and ends with `</dataBar>` |
| DataBars.WrittenLayout | src/structs/data_bar.rs:77-97 | the written `dataBar` holds all value objects, then all colours, each in stored order |
| DataBars.ReadLaidOut | src/structs/data_bar.rs:44-75 | a laid-out `dataBar` appends its value objects and its colours to what the lists held |
| DataBars.ReadOfWrite | src/structs/data_bar.rs:44-97 | reading back what `write_to` wrote appends both stored lists to what the lists held, and stops after `</dataBar>` |
| DataBars.DataBar.constructor | src/structs/data_bar.rs:10-14 | both lists start empty |
| DataBars.DataBar.SetCfvoCollection | src/structs/data_bar.rs:20-23 | replaces the value objects and leaves the colours |
| DataBars.DataBar.AddCfvoCollection | src/structs/data_bar.rs:25-28 | appends exactly one value object at the end and leaves the colours |
| DataBars.DataBar.SetColorCollection | src/structs/data_bar.rs:34-37 | replaces the colours and leaves the value objects |
| DataBars.DataBar.AddColorCollection | src/structs/data_bar.rs:39-42 | appends exactly one colour at the end and leaves the value objects |
| DataBars.DataBar.SetAttributes | src/structs/data_bar.rs:44-75 | the event loop leaves both lists as `DataBarFrom` reads them from the old contents, which are not cleared first, and returns its position, or fails as it fails |
| DataBars.DataBar.WriteTo | src/structs/data_bar.rs:77-97 | writes `DataBarEvents` of the stored lists |
| BackWalls.BackWallFrom | src/structs/drawing/charts/back_wall.rs:44-72 | a successful read stops just after `</c:backWall>`; the thickness is the old one or comes from a `c:thickness` met on the way; any failure other than the missing end tag is a `c:spPr` reader's failure |
| BackWalls.InertStep | src/structs/drawing/charts/back_wall.rs:51-64 | an event that is neither child nor the end tag leaves the wall as it was |
| BackWalls.InertRun | src/structs/drawing/charts/back_wall.rs:51-64 | other elements, however many, leave the wall as it was |
| BackWalls.RepeatedThicknessOverwrites | src/structs/drawing/charts/back_wall.rs:54-56 | a second `c:thickness` overwrites the first, whatever lies between them |
| BackWalls.BackWallEvents | src/structs/drawing/charts/back_wall.rs:74-89 | the written element opens with `c:backWall` and closes with its end tag, with nothing in between when neither child is present |
| BackWalls.ReadWallAt | src/structs/drawing/charts/back_wall.rs:44-72 | a laid-out wall reads back child by child |
| BackWalls.WrittenLayout | src/structs/drawing/charts/back_wall.rs:74-89 | `c:thickness` is written only if present, then `c:spPr` only if present, then the end tag |
| BackWalls.ReadOfWrite | src/structs/drawing/charts/back_wall.rs:44-89 | reading back what `write_to` wrote restores each child that was present and keeps the reader's own value of each absent one |
| BackWalls.BackWall.constructor | src/structs/drawing/charts/back_wall.rs:11-15 | neither child is present |
| BackWalls.BackWall.SetThickness | src/structs/drawing/charts/back_wall.rs:26-29 | makes the thickness present and leaves the shape properties |
| BackWalls.BackWall.SetShapeProperties | src/structs/drawing/charts/back_wall.rs:39-42 | makes the shape properties present and leaves the thickness |
| BackWalls.BackWall.SetAttributes | src/structs/drawing/charts/back_wall.rs:44-72 | the event loop leaves the wall as `BackWallFrom` reads it from the old wall and returns its position, or fails as it fails |
| BackWalls.BackWall.WriteTo | src/structs/drawing/charts/back_wall.rs:74-89 | writes `BackWallEvents` of the current wall |
| SeriesTexts.SeriesTextFrom | src/structs/drawing/charts/series_text.rs:25-42 | a successful read stops at the first `</c:tx>`, and a nested `</c:v>` does not stop it; the only failure is the missing end tag |
| SeriesTexts.Step | src/structs/drawing/charts/series_text.rs:32-40 | any event other than `</c:tx>` and end-of-stream moves on by one, and a text replaces the value |
| SeriesTexts.ReadKeepsLastText | src/structs/drawing/charts/series_text.rs:32-40 | the value a successful read leaves is the last text before `</c:tx>`, or the old value when there is none |
| SeriesTexts.SeriesTextEvents | src/structs/drawing/charts/series_text.rs:44-54 | `c:tx`, `c:v`, the value's text (no event for an empty text), `</c:v>`, `</c:tx>` |
| SeriesTexts.ReadLaidOut | src/structs/drawing/charts/series_text.rs:25-54 | the events `write_to` lays out, met as written, set a non-empty value and leave the old value for an empty one; the read stops after `</c:tx>` |
| SeriesTexts.TokenizedWrite | src/structs/drawing/charts/series_text.rs:44-54 | the tokenizer turns the written `c:tx` into the events written for the trimmed value |
| SeriesTexts.ReadOfWrite | src/structs/drawing/charts/series_text.rs:25-54 | reading back what `write_to` wrote, through the trimming tokenizer, sets the trimmed value, and leaves the old value when the value trims to nothing |
| SeriesTexts.ReadOfWriteTrimmed | src/structs/drawing/charts/series_text.rs:25-54 | a non-empty value with no white space at either end reads back exactly |
| SeriesTexts.SeriesText.constructor | src/structs/drawing/charts/series_text.rs:10-13 | the value is unset and reads as blank |
| SeriesTexts.SeriesText.GetValue | src/structs/drawing/charts/series_text.rs:16-18 | the value, or blank while unset |
| SeriesTexts.SeriesText.SetValue | src/structs/drawing/charts/series_text.rs:20-23 | `get_value` then returns the value set |
| SeriesTexts.SeriesText.SetAttributes | src/structs/drawing/charts/series_text.rs:25-42 | the event loop leaves the value as `SeriesTextFrom` reads it from the old value and returns its position, or fails as it fails |
| SeriesTexts.SeriesText.WriteTo | src/structs/drawing/charts/series_text.rs:44-54 | writes `SeriesTextEvents` of the value |
| SupplementalFonts.WithAttributes | src/structs/drawing/supplemental_font.rs:34-51 | each of `script` and `typeface` is replaced when its attribute is present and kept otherwise |
| SupplementalFonts.FontEvents | src/structs/drawing/supplemental_font.rs:53-64 | one self-closing `a:font` with `script` then `typeface` |
| SupplementalFonts.ReadOfWrite | src/structs/drawing/supplemental_font.rs:34-64 | reading the written attributes into any font gives back both getters |
| SupplementalFonts.SupplementalFont.constructor | src/structs/drawing/supplemental_font.rs:10-14 | neither field is set and both getters read blank |
| SupplementalFonts.SupplementalFont.GetScript | src/structs/drawing/supplemental_font.rs:16-18 | the script, or blank while unset |
| SupplementalFonts.SupplementalFont.GetTypeface | src/structs/drawing/supplemental_font.rs:25-27 | the typeface, or blank while unset |
| SupplementalFonts.SupplementalFont.SetScript | src/structs/drawing/supplemental_font.rs:20-23 | sets the script alone, and `get_script` returns it |
| SupplementalFonts.SupplementalFont.SetTypeface | src/structs/drawing/supplemental_font.rs:29-32 | sets the typeface alone, and `get_typeface` returns it |
| SupplementalFonts.SupplementalFont.SetAttributes | src/structs/drawing/supplemental_font.rs:34-51 | reads no event (the position is returned unchanged) and applies `WithAttributes` |
| SupplementalFonts.SupplementalFont.WriteTo | src/structs/drawing/supplemental_font.rs:53-64 | writes `FontEvents` of the two fields |
| AutoLabeleds.ValFromAttributes | src/structs/drawing/charts/auto_labeled.rs:24-30 | a missing `val` fails with `MissingAttribute`; otherwise the wrapper's parse of the first `val`, or `InvalidValue` when it rejects the text |
| AutoLabeleds.ValEvents | src/structs/drawing/charts/auto_labeled.rs:32-40 | exactly one self-closing `c:auto` whose only attribute is `val` |
| AutoLabeleds.ReadOfWrite | src/structs/drawing/charts/auto_labeled.rs:24-40 | the written element reads back as the value whenever the wrapper parses its own printing |
| AutoLabeleds.OtherAttributesIgnored | src/structs/drawing/charts/auto_labeled.rs:24-30 | attributes with other names, before or after the first `val`, do not change the result |
| AutoLabeleds.AutoLabeled.constructor | src/structs/drawing/charts/auto_labeled.rs:10-13 | the default value is false |
| AutoLabeleds.AutoLabeled.SetVal | src/structs/drawing/charts/auto_labeled.rs:15-22 | `get_val` then returns the value set |
| AutoLabeleds.AutoLabeled.SetAttributes | src/structs/drawing/charts/auto_labeled.rs:24-30 | consumes no event and stores `ValFromAttributes`; on failure the value is left as it was |
| AutoLabeleds.AutoLabeled.WriteTo | src/structs/drawing/charts/auto_labeled.rs:32-40 | writes `ValEvents` of the value |
| AxisIds.ValFromAttributes | src/structs/drawing/charts/axis_id.rs:24-30 | a missing `val` fails with `MissingAttribute`; otherwise the wrapper's parse of the first `val`, or `InvalidValue` when it rejects the text |
| AxisIds.ValEvents | src/structs/drawing/charts/axis_id.rs:32-37 | exactly one self-closing `c:axId` whose only attribute is `val` |
| AxisIds.ReadOfWrite | src/structs/drawing/charts/axis_id.rs:24-37 | the written element reads back as the value whenever the wrapper parses its own printing |
| AxisIds.OtherAttributesIgnored | src/structs/drawing/charts/axis_id.rs:24-30 | attributes with other names, before or after the first `val`, do not change the result |
| AxisIds.AxisId.constructor | src/structs/drawing/charts/axis_id.rs:10-13 | the default value is 0 |
| AxisIds.AxisId.SetVal | src/structs/drawing/charts/axis_id.rs:15-22 | `get_val` then returns the value set |
| AxisIds.AxisId.SetAttributes | src/structs/drawing/charts/axis_id.rs:24-30 | consumes no event and stores `ValFromAttributes`; on failure the value is left as it was |
| AxisIds.AxisId.WriteTo | src/structs/drawing/charts/axis_id.rs:32-37 | writes `ValEvents` of the value |
| LegendPositions.ValFromAttributes | src/structs/drawing/charts/legend_position.rs:25-31 | a missing `val` fails with `MissingAttribute`; otherwise the wrapper's parse of the first `val`, or `InvalidValue` when it rejects the text |
| LegendPositions.ValEvents | src/structs/drawing/charts/legend_position.rs:33-38 | exactly one self-closing `c:legendPos` whose only attribute is `val` |
| LegendPositions.ReadOfWrite | src/structs/drawing/charts/legend_position.rs:25-38 | the written element reads back as the value whenever the wrapper parses its own printing |
| LegendPositions.OtherAttributesIgnored | src/structs/drawing/charts/legend_position.rs:25-31 | attributes with other names, before or after the first `val`, do not change the result |
| LegendPositions.LegendPosition.constructor | src/structs/drawing/charts/legend_position.rs:11-14 | the value is the enumeration's default |
| LegendPositions.LegendPosition.SetVal | src/structs/drawing/charts/legend_position.rs:16-23 | `get_val` then returns the value set |
| LegendPositions.LegendPosition.SetAttributes | src/structs/drawing/charts/legend_position.rs:25-31 | consumes no event and stores `ValFromAttributes`; on failure the value is left as it was |
| LegendPositions.LegendPosition.WriteTo | src/structs/drawing/charts/legend_position.rs:33-38 | writes `ValEvents` of the value |
| TrueFalseBlankValues.ValueStr | src/structs/true_false_blank_value.rs:10-12 | `t`, `f` or blank, each exactly for true, false or unset |
| TrueFalseBlankValues.ValueString2 | src/structs/true_false_blank_value.rs:14-17 | `True`, `False` or blank, each exactly for true, false or unset |
| TrueFalseBlankValues.HashString | src/structs/true_false_blank_value.rs:33-38 | `empty!!` when unset, otherwise `t` or `f` |
| TrueFalseBlankValues.BoolFromTextFalseExactly | src/structs/true_false_blank_value.rs:24-27 | `set_value_string` stores false exactly for texts whose ASCII lower case is `f` or `false` |
| TrueFalseBlankValues.BoolFromTextExamples | src/structs/true_false_blank_value.rs:24-27 | `0`, blank, `no` and `t` store true; `FALSE`, `F` and `fAlSe` store false |
| TrueFalseBlankValues.PrintedValueReadsBack | src/structs/true_false_blank_value.rs:10-27 | parsing either printed form of a set value restores that value |
| TrueFalseBlankValues.HashStringInjective | src/structs/true_false_blank_value.rs:33-38 | the hash string tells all three states apart |
| TrueFalseBlankValues.TrueFalseBlankValue.constructor | src/structs/true_false_blank_value.rs:1-4 | the default is blank: no value and `has_value` false |
| TrueFalseBlankValues.TrueFalseBlankValue.GetValueStr | src/structs/true_false_blank_value.rs:10-12 | `ValueStr` of the held value |
| TrueFalseBlankValues.TrueFalseBlankValue.GetValueString2 | src/structs/true_false_blank_value.rs:14-17 | `ValueString2` of the held value |
| TrueFalseBlankValues.TrueFalseBlankValue.HasValue | src/structs/true_false_blank_value.rs:29-31 | true exactly when a value is held |
| TrueFalseBlankValues.TrueFalseBlankValue.GetHashString | src/structs/true_false_blank_value.rs:33-38 | `HashString` of the held value |
| TrueFalseBlankValues.TrueFalseBlankValue.SetValue | src/structs/true_false_blank_value.rs:19-22 | `has_value` becomes true and `get_value` gives the value set |
| TrueFalseBlankValues.TrueFalseBlankValue.SetValueString | src/structs/true_false_blank_value.rs:24-27 | stores the boolean the text parses to, and `has_value` becomes true |
| VmlDrawings.OleCalls | src/writer/xlsx/vml_drawing.rs:133-139 | one call per OLE shape, in collection order |
| VmlDrawings.CommentCalls | src/writer/xlsx/vml_drawing.rs:170-174 | one call per comment shape, in collection order |
| VmlDrawings.Allocation | src/writer/xlsx/vml_drawing.rs:47-175 | the shapes visited are the OLE shapes when the sheet has OLE objects and then the comment shapes when it has comments |
| VmlDrawings.AllocationAt | src/writer/xlsx/vml_drawing.rs:47-175 | the k-th shape visited gets id `drawing_id * 1000 + 25 + k`; it is the k-th OLE shape with relationship number k + 1, or, past the OLE shapes, a comment shape with relationship number 0 |
| VmlDrawings.ShapeIdsIncrease | src/writer/xlsx/vml_drawing.rs:47-175 | shape ids within a part are strictly increasing from the first id, so no two shapes share one |
| VmlDrawings.DrawingBlocksDisjoint | src/writer/xlsx/vml_drawing.rs:47 | a part with at most 1000 shapes stays below the first id of any later drawing |
| VmlDrawings.CrowdedDrawingReachesNextBlock | src/writer/xlsx/vml_drawing.rs:47 | with 1001 shapes in drawing 1, the 1001st gets id 2025, the first id of drawing 2 |
| VmlDrawings.IdMapNamesDrawing | src/writer/xlsx/vml_drawing.rs:38-43 | the `data` attribute of `o:idmap` is the drawing id and reads back as that number |
| VmlDrawings.ShapeTypesGated | src/writer/xlsx/vml_drawing.rs:50-175 | `_x0000_t75` follows the header exactly when there are OLE objects, `_x0000_t202` follows the OLE block when there are comments, and with neither the part ends after the header |
| VmlDrawings.WriteOleShapes | src/writer/xlsx/vml_drawing.rs:133-139 | the loop writes `OleCalls` from the given id, or reports that the id counter overflows usize exactly when it would |
| VmlDrawings.WriteCommentShapes | src/writer/xlsx/vml_drawing.rs:170-174 | the loop writes `CommentCalls` from the given id, or reports that the id counter overflows usize exactly when it would |
| VmlDrawings.Write | src/writer/xlsx/vml_drawing.rs:9-181 | a sheet without a legacy drawing writes nothing and succeeds; otherwise an overflowing id counter or a failing part write is a failure, and success writes `xl/drawings/vmlDrawing{vml_drawing_id}.vml` with the header, the gated blocks and the shape calls of `Allocation` |
| PackageWriter.ChartCalls | src/writer/xlsx.rs:138-142 | one chart part per graphic frame |
| PackageWriter.MediaCalls | src/writer/xlsx.rs:144-146 | one media part per picture |
| PackageWriter.ChartCallIds | src/writer/xlsx.rs:138-142 | a sheet's chart parts are numbered consecutively from the current chart id |
| PackageWriter.SheetCallIds | src/writer/xlsx.rs:107-146 | one sheet's calls hold its own worksheet id i + 1 once, and chart ids from the current counter on |
| PackageWriter.SheetIdsInOrder | src/writer/xlsx.rs:107-128 | the worksheet calls carry the ids 1, 2, …, n in sheet order |
| PackageWriter.ChartIdsInOrder | src/writer/xlsx.rs:104-142 | the chart ids are 1, 2, … up to the number of graphic frames, across all sheets, never reset |
| PackageWriter.DrawingSheetsGrow | src/writer/xlsx.rs:130-136 | the drawing and comment counters never go down from one sheet to a later one |
| PackageWriter.IdsNotReused | src/writer/xlsx.rs:124-136 | a sheet with drawing objects has a drawing id no later sheet gets, and likewise a sheet with comments has a comment id no later sheet gets |
| PackageWriter.SheetsCallsPrefix | src/writer/xlsx.rs:107-147 | the calls for the first i sheets are a prefix of the calls for all sheets |
| PackageWriter.CountersStartAtOne | src/writer/xlsx.rs:104-128 | the first sheet is written with id 1 and with every counter at 1 |
| PackageWriter.SharedStringsAndStylesFirst | src/writer/xlsx.rs:97-128 | shared strings and styles are written before any worksheet |
| PackageWriter.DiscardedFailuresIgnored | src/writer/xlsx.rs:76-101 | failures of part writers other than shared strings and styles change neither the calls made nor the result |
| PackageWriter.WriteSheet | src/writer/xlsx.rs:108-146 | the loop body makes `SheetCalls` with the current ids; the drawing id goes up by one only for a sheet with drawing objects, the comment id only for a sheet with comments, and the chart id by one per graphic frame |
| PackageWriter.Write | src/writer/xlsx.rs:72-152 | a failing temporary directory calls nothing; otherwise the calls are `Trace`, stopping at a failing shared-strings or styles writer; the result is the first failure among the temporary directory, shared strings, styles, packing and closing, or success |

## Left out

- The XML tokenizer and its errors (`Err(e) => panic!`), and text unescaping, are not modelled beyond text trimming. The readers start from a sequence of events that has already been tokenized and unescaped, with text trimmed as `Xml.Tokenized` describes. Only the series-text round trip runs written events through `Xml.Tokenized`. The only other written texts are the anchor's decimal numbers, which have no white space to trim. Attribute values are not trimmed.
- `get_attribute` is a helper whose code is not part of this model. `Xml.GetAttribute` takes the first attribute with the key. The `cfvo` and `cfRule` attribute loops see every attribute in turn, so a later attribute wins there.
- The zip archive, `TempDir`, `make_file_from_writer`, `write_to_file` and `close` are not modelled. Which of them fail is a parameter: a set of failing part paths for the VML writer, and an `Environment` for the package writer.
- The package writer records which part writer is called with which ids. It does not model what those writers write. The parts called by `worksheet::write`, `worksheet_rels::write`, `drawing::write`, `drawing_rels::write`, `comment::write`, `chart::write` and `media::write` are not part of this model.
- `Worksheet::has_drawing_object`, `has_comments`, `has_legacy_drawing` and `has_ole_objects` are not part of this model. They are independent flags of a sheet.
- The `vml_drawing::write` call at src/writer/xlsx.rs:128 passes the comment id. That does not match the signature at src/writer/xlsx/vml_drawing.rs:9-14, so the two files come from different revisions. Each file is modelled as written: the package writer records `VmlDrawingPart(comment_id)`, and the two are not connected.
- In the package writer, counter overflow (`drawing_id += 1`, `comment_id += 1`, `chart_id += 1`, `i + 1`) is not modelled. Each counter is bounded by the number of in-memory sheets or graphic frames.
- In the VML writer only the shape-id counter is checked for overflow. The relationship number is at most the number of OLE shapes plus one, so it cannot overflow unless the shape id does first.
- `Shape::write_to` is uninterpreted (`Collaborators.ShapeEvents`). The model records each call with its id and relationship number, not the `v:shape` it writes.
- The other children of the worksheet loop (`sheetView`, `row`, `cols`, `mergeCells`, `oleObjects`, `headerFooter`, `rowBreaks`, `colBreaks`, `pageMargins`, `sheetPr`, `printOptions`, `pageSetup` and the rest) are not part of this model. A started child with its own reader is handed to `Collaborators.DelegateConsumes`, which reports how many events it consumed. Every other child is skipped.
- `read`'s opening of the zip entry, the shared string table and the sheet id and name parameters are left out. The stylesheet and the theme are parameters.
- `Color::set_attributes`, `set_argb_by_theme` (floating-point tint arithmetic), `ConditionalFormatValueObject`, `Thickness`, `ShapeProperties` and the coordinate and adjustment helpers are opaque. The same goes for the string conversions of `BooleanValue`, `UInt32Value` and `EnumValue` and for `DifferentialFormats::get_style`. No round trip is assumed about any of them: `ReadOfWrite` lemmas that need one take it as a `requires`.
- `DataBars.DataBar.SetAttributes`, `BackWalls.BackWall.SetAttributes`, `SeriesTexts.SeriesText.SetAttributes` and `MarkerTypes.MarkerType.SetAttributes` take the stream from just after the element's own start tag. The start tag's attributes are never read by the source.
- `BackWalls.BackWallFrom`: its contract says where a read ends and where the thickness comes from. The exact value, and the failure cases, are stated by `InertRun`, `RepeatedThicknessOverwrites` and `ReadOfWrite`.
- `src/reader/xlsx/styles.rs`, `src/writer/xlsx/drawing.rs` and `src/writer/xlsx/vba_project_bin.rs` are zip plumbing around readers and writers that are not part of this model.
- StringValues.Get: `StringValue`'s code is not part of this model. It is modelled as an optional string that reads as "" while unset, and `set_value` is assumed to store the string unchanged.
- AutoLabeleds.AutoLabeled.constructor and AxisIds.AxisId.constructor assume that a default `BooleanValue` reads false and a default `UInt32Value` reads 0. The code of those wrappers is not part of this model.
- WorksheetReader.Read keys cell hyperlinks by the raw `ref` text. The source stores each hyperlink on the cell that `get_cell_mut(&coor)` returns. That coordinate parsing, and any normalisation of the reference or panic on a malformed one, is not part of this model.
- SeriesTexts.ReadOfWrite restores the value exactly only when it has no white space at either end. A padded value reads back trimmed, and a value of only white space leaves the old value, because the tokenizer trims text.
- Getters that only return a field (`get_col`, `get_thickness`, `get_cfvo_collection`, …) have no contract of their own. The setters' contracts and each class's `Value()` state what they return.
