/** The types and helpers the modelled code calls but whose code is not part of this model.

    Each is an opaque type or an uninterpreted function: the model assumes nothing about them
    beyond their signatures. Where the helper reads from the event stream it is given the
    rest of the stream and reports how many events it consumed. */
module Collaborators {
  import opened Xml
  import opened Numeric

  /** `structs::Style`, as materialised from a differential format. */
  type Style(==, 0)
  /** `structs::Stylesheet`. */
  type Stylesheet
  /** `structs::Theme`. */
  type Theme
  /** `structs::Color`. */
  type Color(==, 0)
  /** `structs::ConditionalFormatValueObject`. */
  type ConditionalFormatValueObject(==, 0)
  /** `c:thickness` and `c:spPr` values of a chart wall. */
  type Thickness(==, 0)
  type ShapeProperties(==, 0)
  /** The `v:shape` of an OLE object or a comment. */
  type Shape
  /** `LegendPositionValues`, the enumeration behind `c:legendPos`. */
  type LegendPositionValues(==, 0)

  /** `stylesheet.get_differential_formats().get_style(index)`. */
  const DifferentialStyle: (Stylesheet, nat) -> Style

  /** `Color::set_attributes` on a self-closing `color` element. */
  const ColorFromAttributes: seq<Attribute> -> Color
  /** `Color::set_attributes` followed by `set_argb_by_theme`. */
  const ThemedColor: (seq<Attribute>, Theme) -> Color
  /** `Color::write_to_color`. */
  const ColorEvents: Color -> seq<Event>

  /** `ConditionalFormatValueObject::set_attributes` on a self-closing `cfvo`, and its `write_to`. */
  const CfvoFromAttributes: seq<Attribute> -> ConditionalFormatValueObject
  const CfvoEvents: ConditionalFormatValueObject -> seq<Event>

  /** `Thickness::set_attributes` on a self-closing `c:thickness`, and its `write_to`. */
  const ThicknessFromAttributes: seq<Attribute> -> Thickness
  const ThicknessEvents: Thickness -> seq<Event>

  /** `ShapeProperties::set_attributes` after a `c:spPr` start tag: given the rest of the
      stream, the value read and the number of events consumed, or its failure. */
  const ReadShapeProperties: seq<Event> -> Result<(ShapeProperties, nat)>
  const ShapePropertiesEvents: ShapeProperties -> seq<Event>

  /** `Shape::write_to(writer, id, r_id)`. */
  const ShapeEvents: (Shape, nat, nat) -> seq<Event>

  /** `helper::coordinate`: `coordinate_from_index(col, row)` and `index_from_coordinate`
      (1-based column and row; only those two results are used). */
  const CoordinateFromIndex: (nat, nat) -> string
  const IndexFromCoordinate: string -> (Option<U32>, Option<U32>)

  /** `adjustment_insert_coordinate`, `adjustment_remove_coordinate` and
      `is_remove_coordinate` on one 1-based index: (index, root, offset). */
  const AdjustInsertCoordinate: (U32, U32, U32) -> U32
  const AdjustRemoveCoordinate: (U32, U32, U32) -> U32
  const IsRemoveCoordinateAt: (U32, U32, U32) -> bool

  /** The string forms of the value wrappers `BooleanValue`, `UInt32Value` and
      `EnumValue<LegendPositionValues>`: `set_value_string` (which may reject a text) and
      `get_value_string`. */
  const BooleanFromString: string -> Option<bool>
  const BooleanToString: bool -> string
  const UInt32FromString: string -> Option<U32>
  const UInt32ToString: U32 -> string
  const LegendPositionFromString: string -> Option<LegendPositionValues>
  const LegendPositionToString: LegendPositionValues -> string
  /** `LegendPositionValues::default()`. */
  const DefaultLegendPosition: LegendPositionValues

  /** How many events the reader of a delegated worksheet child (`row`, `cols`, `sheetView`, ...)
      consumes after its start tag, given the element name and the rest of the stream. */
  const DelegateConsumes: (string, seq<Event>) -> nat
}
