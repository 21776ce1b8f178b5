/**
  The crop form both providers keep: four numeric fields edited through text
  inputs, where a blank entry stands for 0.
*/
module CropInput {
  import opened JsNumbers

  datatype Crop = Crop(x: real, y: real, width: real, height: real)

  const EmptyCrop := Crop(0.0, 0.0, 0.0, 0.0)

  /** The `name` attribute of the input that changed. */
  datatype CropField = X | Y | Width | Height

  function Field(c: Crop, f: CropField): real
  {
    match f
    case X => c.x
    case Y => c.y
    case Width => c.width
    case Height => c.height
  }

  /** `{ ...prev, [name]: v }`. */
  function WithField(c: Crop, f: CropField, v: real): (r: Crop)
    ensures Field(r, f) == v
    ensures forall other :: other != f ==> Field(r, other) == Field(c, other)
  {
    match f
    case X => c.(x := v)
    case Y => c.(y := v)
    case Width => c.(width := v)
    case Height => c.(height := v)
  }

  /**
    handleCropChange: the field takes `Number(value)` (passed in as `number`)
    when `value.trim()` is non-empty, and 0 when the entry is empty or white
    space only; the other fields keep their values.
  */
  function CropChange(crop: Crop, field: CropField, value: string, number: real): (r: Crop)
    ensures IsBlank(value) ==> Field(r, field) == 0.0
    ensures !IsBlank(value) ==> Field(r, field) == number
    ensures forall other :: other != field ==> Field(r, other) == Field(crop, other)
  {
    TrimIsEmptyIffBlank(value);
    WithField(crop, field, if Trim(value) != [] then number else 0.0)
  }
}
