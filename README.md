# rust-tracer foundation, modelled in Dafny

This project models the numeric base of a small ray tracer in Dafny 4.11:

- **Tuples:** a four-component spatial tuple, where w = 1 marks a point and w = 0 a free vector. It has component-wise addition, negation, subtraction, scaling and division, plus a dot and a cross product that both insist on vectors.
- **Colours:** an RGB colour with the same channel-wise algebra plus a channel-wise (Hadamard) product.
- **Approximate equality:** the comparison that both value types build their `==` from.
- **Canvas:** a fixed-size, row-major grid of colours that is written pixel by pixel and serialised to the plain Netpbm PPM ("P3") text format.

One module per source file, plus `Text` for the serialiser's string primitives:

- `Utils` (`utils.dfy`) models `src/utils.rs`: `ApproxEq` is `|a - b| < 0.00001`.
- `Tuples` (`tuple.dfy`) models `src/tuple.rs`. The datatype constructor `Tuple(x, y, z, w)` is `Tuple::new`.
- `Colors` (`color.dfy`) models `src/color.rs`. The datatype constructor `Color(r, g, b)` is `Color::new` and keeps its channels unclamped.
- `Text` (`text.dfy`) holds the text primitives the serialiser uses:
  - `Render` is decimal formatting with `format!("{}")`;
  - `Join` is the standard `join`;
  - `Split` is the reader's inverse of `Join`. It is used only to state what the output looks like.
- `Canvases` (`canvas.dfy`) models `src/canvas.rs`:
  - The class `Canvas` keeps `width`, `height` and the pixel buffer as constant fields, because the source never reassigns them. The buffer is an `array<Color>` whose slots `SetPixel` overwrites in place.
  - `ppm_header`, `ppm_body` and `to_ppm` only read the buffer. They are pure functions (`Header`, `Body`, `BodyLines`, …). The class function `PpmHeader` applies `Header` to the dimensions; `PpmBody` and `ToPpm` apply the body functions to `pixels[..]`.

Floating-point fields are modelled as `real`. Dafny reals have no square root, so the magnitude that `Tuple::new` caches is not stored. `IsMagnitude(t, m)` states that m is non-negative and that m² = x² + y² + z² + w². `Normalize` takes the cached magnitude as a parameter.

Two details of the output follow directly from the code:

- **The channel byte cast.** The byte is `(c * 255.).ceil() as u8`. Rust's float-to-integer `as` cast saturates, so `ChannelByte` saturates into 0..255. The test at src/canvas.rs:94-105 expects 1.5 to become 255; a wrapping cast would give 127.
- **The document layout.** `to_ppm` writes `header + "\n" + body + "\n"`, and the header ends in `255` without a line break, so no blank line separates the header from the pixel rows. `ToPpm` and `DocumentLines` state the lines the code produces.

## Model

| member | source | states |
|---|---|---|
| `Utils.ApproxEq` | src/utils.rs:1-4 | `fp_approx_eq`: no contract of its own; ApproxEqInterval, ApproxEqStrict, ApproxEqReflexive, ApproxEqSymmetric and ApproxEqNotTransitive state its meaning and laws |
| `Utils.Abs` | src/utils.rs:3 | the result is non-negative and is x or -x (the `abs` used by the comparison) |
| `Utils.ApproxEqInterval` | src/utils.rs:1-4 | `fp_approx_eq(a, b)` holds iff b lies strictly within 0.00001 of a |
| `Utils.ApproxEqStrict` | src/utils.rs:3 | a difference of exactly 0.00001 compares unequal, in either order |
| `Utils.ApproxEqReflexive` | src/utils.rs:3 | every value is approximately equal to itself |
| `Utils.ApproxEqSymmetric` | src/utils.rs:3 | the comparison does not depend on argument order |
| `Utils.ApproxEqNotTransitive` | src/utils.rs:1-4 | 0 ≈ 0.000006 ≈ 0.000012, yet 0 is not ≈ 0.000012, so the derived `==` is not transitive |
| `Colors.Add` | src/color.rs:11-20 | channel-wise sum: no contract of its own; AddCommutative, AddAssociative, AddBlack and SubAddRoundTrip state its laws |
| `Colors.Neg` | src/color.rs:29-38 | every channel negated: no contract of its own; NegInvolutive and SubAddRoundTrip state its laws |
| `Colors.Scale` | src/color.rs:40-49 | scalar product: no contract of its own; ScaleDistributes, ScaleIsMulByGrey and DivScaleRoundTrip state its laws |
| `Colors.Mul` | src/color.rs:51-60 | Hadamard product: no contract of its own; MulCommutative, MulWhiteBlack and ScaleIsMulByGrey state its laws |
| `Colors.Equal` | src/color.rs:69-77 | `PartialEq`, every channel approximately equal: no contract of its own; EqualReflexive and EqualSymmetric state its laws |
| `Colors.Sub` | src/color.rs:22-38 | `a - b`, defined as `a + -b`, is the channel-wise difference |
| `Colors.Div` | src/color.rs:62-67 | `a / s`, defined as `a * (1 / s)`, gives channels that times s are a's channels |
| `Colors.AddCommutative` | src/color.rs:11-20 | channel-wise addition is commutative |
| `Colors.AddAssociative` | src/color.rs:11-20 | channel-wise addition is associative |
| `Colors.AddBlack` | src/color.rs:11-20 | black is the neutral element of addition |
| `Colors.NegInvolutive` | src/color.rs:29-38 | negating twice gives the colour back |
| `Colors.SubAddRoundTrip` | src/color.rs:11-38 | subtracting undoes adding and vice versa; a - a is black |
| `Colors.ScaleDistributes` | src/color.rs:40-49 | scalar multiplication distributes over addition |
| `Colors.ScaleIsMulByGrey` | src/color.rs:40-60 | scaling by s equals the Hadamard product with the grey (s, s, s) |
| `Colors.MulCommutative` | src/color.rs:51-60 | the Hadamard product is commutative |
| `Colors.MulWhiteBlack` | src/color.rs:51-60 | white is neutral for the Hadamard product; black absorbs it |
| `Colors.DivScaleRoundTrip` | src/color.rs:40-67 | dividing by a non-zero s and scaling by s undo each other |
| `Colors.EqualReflexive` | src/color.rs:69-77 | every colour equals itself under the channel-wise approximate equality |
| `Colors.EqualSymmetric` | src/color.rs:69-77 | colour equality does not depend on argument order |
| `Colors.ColorExamples` | src/color.rs:92-130 | construction keeps (-0.5, 0.4, 1.7) unclamped; the addition, subtraction, scaling and Hadamard test results hold exactly |
| `Tuples.Add` | src/tuple.rs:14-24 | sum of all four components: no contract of its own; AddCommutative, AddAssociative, PointVectorArithmetic and SubAddRoundTrip state its laws |
| `Tuples.Neg` | src/tuple.rs:33-43 | all four components negated: no contract of its own; NegInvolutive and SubAntiCommutative state its laws |
| `Tuples.Scale` | src/tuple.rs:45-55 | scalar product: no contract of its own; ScaleDistributes, DivScaleRoundTrip and MagnitudeScale state its laws |
| `Tuples.Equal` | src/tuple.rs:64-73 | `PartialEq`, every component approximately equal: no contract of its own; EqualReflexive, EqualSymmetric and NormalizeExample state its laws and its use |
| `Tuples.Point` | src/tuple.rs:87-89 | `point(x, y, z)` is a point (w = 1) with x, y, z as given |
| `Tuples.Vector` | src/tuple.rs:91-93 | `vector(x, y, z)` is a vector (w = 0) with x, y, z as given |
| `Tuples.Sub` | src/tuple.rs:26-31 | `a - b`, defined as `a + -b`, is the difference in all four components |
| `Tuples.Div` | src/tuple.rs:57-62 | `a / s`, defined as `a * (1 / s)`, gives components that times s are a's |
| `Tuples.IsMagnitude` | src/tuple.rs:80-82 | m is the non-negative root of the sum of squares: no contract of its own; MagnitudeUnique shows it fixes m, and MagnitudeScale, NormalizeIsUnit and DotSelf use it |
| `Tuples.MagnitudeSquared` | src/tuple.rs:80-82 | the sum of the four squares is non-negative and zero exactly for the zero tuple |
| `Tuples.Normalize` | src/tuple.rs:95-102 | each component of the result times the cached magnitude is the original component |
| `Tuples.Dot` | src/tuple.rs:104-113 | only defined for two vectors; equals x·x' + y·y' + z·z' (the w term vanishes) |
| `Tuples.Cross` | src/tuple.rs:115-125 | only defined for two vectors; the result is a vector |
| `Tuples.AddCommutative` | src/tuple.rs:14-24 | addition over all four components is commutative |
| `Tuples.AddAssociative` | src/tuple.rs:14-24 | addition is associative |
| `Tuples.PointVectorArithmetic` | src/tuple.rs:14-31 | point ± vector is a point, point - point and vector ± vector are vectors, point + point has w = 2 and is not rejected |
| `Tuples.NegInvolutive` | src/tuple.rs:33-43 | negating all four components twice gives the tuple back |
| `Tuples.SubAddRoundTrip` | src/tuple.rs:14-43 | subtracting undoes adding and vice versa; a - a is the zero vector |
| `Tuples.SubAntiCommutative` | src/tuple.rs:26-43 | b - a is the negation of a - b |
| `Tuples.ScaleDistributes` | src/tuple.rs:45-55 | scalar multiplication distributes over addition |
| `Tuples.DivScaleRoundTrip` | src/tuple.rs:45-62 | dividing by a non-zero s and scaling by s undo each other |
| `Tuples.MagnitudeUnique` | src/tuple.rs:80-82 | a tuple has exactly one magnitude (non-negative root of the sum of squares) |
| `Tuples.MagnitudeScale` | src/tuple.rs:45-55 | scaling a tuple by s scales its magnitude by abs(s) |
| `Tuples.NormalizeIsUnit` | src/tuple.rs:95-102 | a normalised non-zero tuple has magnitude 1 |
| `Tuples.NormalizeKeepsVector` | src/tuple.rs:95-102 | normalising a vector gives a vector |
| `Tuples.DotSelf` | src/tuple.rs:104-113 | the dot product of a vector with itself is its magnitude squared |
| `Tuples.DotCommutative` | src/tuple.rs:104-113 | the dot product is symmetric |
| `Tuples.CrossAntiCommutative` | src/tuple.rs:115-125 | b × a = -(a × b) |
| `Tuples.CrossPerpendicular` | src/tuple.rs:115-125 | a × b is perpendicular to a and to b (both dot products are 0) |
| `Tuples.CrossSelfIsZero` | src/tuple.rs:115-125 | a × a is the zero vector |
| `Tuples.DotLawOfCosines` | src/tuple.rs:104-113 | ‖a - b‖² = ‖a‖² + ‖b‖² - 2 a·b, the law of cosines that makes a·b = ‖a‖·‖b‖·cos θ |
| `Tuples.CrossLagrange` | src/tuple.rs:104-125 | Lagrange's identity: ‖a × b‖² = ‖a‖²·‖b‖² - (a·b)², so ‖a × b‖ = ‖a‖·‖b‖·sin θ |
| `Tuples.DotCauchySchwarz` | src/tuple.rs:104-113 | (a·b)² ≤ ‖a‖²·‖b‖², so the cosine the dot product is proportional to lies in [-1, 1] |
| `Tuples.EqualReflexive` | src/tuple.rs:64-73 | every tuple equals itself under the component-wise approximate equality |
| `Tuples.EqualSymmetric` | src/tuple.rs:64-73 | tuple equality does not depend on argument order |
| `Tuples.ArithmeticExamples` | src/tuple.rs:153-226 | the point/vector construction, addition, subtraction, negation, scaling and division tests hold exactly |
| `Tuples.MagnitudeExamples` | src/tuple.rs:228-268 | the unit axes have magnitude 1, (±1, ±2, ±3) has magnitude squared 14, and normalising (4, 0, 0) gives (1, 0, 0) |
| `Tuples.NormalizeExample` | src/tuple.rs:270-275 | every magnitude of (1, 2, 3) normalises it to a tuple that compares equal, within the 0.00001 tolerance, to (0.26726, 0.53452, 0.80178) |
| `Tuples.QuotientWithin` | src/utils.rs:1-4 | a quotient c / m with m in a known interval compares approximately equal to a target whose tolerance interval, scaled by the bounds, brackets c |
| `Tuples.ProductExamples` | src/tuple.rs:277-293 | (1,2,3)·(2,3,4) = 20, (1,2,3)×(2,3,4) = (-1,2,-1) and (2,3,4)×(1,2,3) = (1,-2,1) |
| `Text.Join` | src/canvas.rs:43-44 | the standard `join`: no contract of its own; SplitJoin and JoinSplit tie it to Split in both directions, and JoinThree and JoinFive give its small cases |
| `Text.Render` | src/canvas.rs:39-42 | decimal rendering is non-empty, all digits, has no leading zero, and has 1, 2 or 3 digits for values below 10, 100, 1000 |
| `Text.ParseRender` | src/canvas.rs:39-42 | reading a rendered number back gives the number |
| `Text.RenderInjective` | src/canvas.rs:39-42 | distinct numbers render to distinct texts |
| `Text.SplitJoin` | src/canvas.rs:43-44 | splitting a `join` at its separator gives back the parts when none contains the separator |
| `Text.JoinSplit` | src/canvas.rs:43-44 | joining the pieces of any string at the separator gives the string back, so the pieces determine the text |
| `Canvases.IndexInBounds` | src/canvas.rs:17-29 | slot y * width + x of an in-bounds coordinate lies inside the width * height buffer |
| `Canvases.IndexDistinct` | src/canvas.rs:24-29 | distinct in-bounds coordinates address distinct slots |
| `Canvases.Ceil` | src/canvas.rs:41 | the result is the least integer not below the argument |
| `Canvases.ChannelByte` | src/canvas.rs:41 | the byte is in 0..255, 0 for channels ≤ 0, 255 for channels ≥ 1, and otherwise the least integer ≥ c * 255 |
| `Canvases.ChannelByteExamples` | src/canvas.rs:94-105 | 1.5 → 255, 0.5 → 128, -0.5 → 0, 1 → 255, 0 → 0 |
| `Canvases.PixelText` | src/canvas.rs:39-42 | the `format!` of one pixel: no contract of its own; PixelTokens states that it is its three channel tokens separated by spaces, and PixelTextExamples gives the test's values |
| `Canvases.RowText` | src/canvas.rs:37-43 | one row's pixel texts joined by spaces: no contract of its own; RowTokens states that it splits into the row's 3 * width channel tokens |
| `Canvases.PixelTexts` | src/canvas.rs:37-42 | one text per pixel, the i-th being that pixel's "r g b" |
| `Canvases.ChannelsOf` | src/canvas.rs:39-42 | a pixel gives three tokens, each a string of decimal digits |
| `Canvases.ChannelTokens` | src/canvas.rs:37-43 | a row gives three tokens per pixel |
| `Canvases.ChannelTokensDigits` | src/canvas.rs:37-43 | every token of a row is a string of decimal digits, so none contains a space or a line break |
| `Canvases.ChannelTokensAt` | src/canvas.rs:37-43 | token 3i, 3i+1, 3i+2 of a row is the rendered r, g, b byte of pixel i |
| `Canvases.PixelTokens` | src/canvas.rs:39-42 | a pixel's text splits at spaces into its three channel tokens and has no line break |
| `Canvases.RowTokens` | src/canvas.rs:37-43 | a non-empty row line splits at single spaces into exactly its 3 * width channel tokens in column order; an empty row gives an empty line; no line break occurs |
| `Canvases.Row` | src/canvas.rs:36-38 | row `row` has width pixels, the col-th being slot row * width + col |
| `Canvases.BodyLines` | src/canvas.rs:35-45 | there are exactly height lines |
| `Canvases.BodyLinesNoBreak` | src/canvas.rs:35-45 | no body line contains a line break |
| `Canvases.BodyLinesAt` | src/canvas.rs:36-44 | line `row` of the body is the line of row `row` of the buffer |
| `Canvases.Body` | src/canvas.rs:35-45 | `ppm_body` over the pixel sequence: no contract of its own; BodyStructure, BodyLinesAt and BodyTokenAt state its lines and their tokens |
| `Canvases.BodyStructure` | src/canvas.rs:35-45 | splitting the body at line breaks gives exactly the height row lines (no trailing newline); an empty grid has an empty body |
| `Canvases.BodyTokenAt` | src/canvas.rs:35-45 | line `row` of the body, split at spaces, has 3 * width tokens, and tokens 3col, 3col+1, 3col+2 are the decimal r, g, b bytes of the pixel at (col, row) |
| `Canvases.Header` | src/canvas.rs:31-33 | `ppm_header` for given dimensions: no contract of its own; HeaderLines states its three lines and that the dimensions read back, HeaderExample its 5 x 3 value |
| `Canvases.HeaderLines` | src/canvas.rs:31-33 | the header is the three lines "P3", "width height", "255", and the dimension line reads back as width and height |
| `Canvases.HeaderExample` | src/canvas.rs:82-88 | the header of a 5 x 3 canvas is "P3\n5 3\n255" |
| `Canvases.DocumentLines` | src/canvas.rs:48-50 | header + "\n" + body + "\n" has the header lines, then the body lines, then the empty piece after the final line break |
| `Canvases.TestRow0` | src/canvas.rs:91-105 | the first row of the pixel-data test renders as "255 0 0 0 0 0 0 0 0 0 0 0 0 0 0" |
| `Canvases.TestRow1` | src/canvas.rs:91-105 | the second row renders as "0 0 0 0 0 0 0 128 0 0 0 0 0 0 0" |
| `Canvases.TestRow2` | src/canvas.rs:91-105 | the third row renders as "0 0 0 0 0 0 0 0 0 0 0 0 0 0 255" |
| `Canvases.TestBodyLines` | src/canvas.rs:91-111 | the body lines of the test's pixels are the three expected rows |
| `Canvases.BodyExample` | src/canvas.rs:91-111 | the body of the test's pixels is exactly the expected three-line string |
| `Canvases.PixelTextExamples` | src/canvas.rs:39-42 | black, (1.5,0,0), (0,0.5,0), (-0.5,0,1) render as "0 0 0", "255 0 0", "0 128 0", "0 0 255" |
| `Canvases.Canvas.constructor` | src/canvas.rs:11-15 | width and height are recorded unchanged; the buffer is fresh, holds width * height pixels, all black |
| `Canvases.Canvas.GetPixel` | src/canvas.rs:17-22 | requires 0 ≤ x < width and 0 ≤ y < height; returns slot y * width + x |
| `Canvases.Canvas.SetPixel` | src/canvas.rs:24-29 | requires in-bounds coordinates; afterwards the canvas is still valid, (x, y) reads back c, every other pixel reads as before, and the buffer is the old one with only slot y * width + x replaced |
| `Canvases.Canvas.PpmHeader` | src/canvas.rs:31-33 | exactly "P3\n" + width + " " + height + "\n255", i.e. the three header lines |
| `Canvases.Canvas.PpmBody` | src/canvas.rs:35-45 | empty for height 0; otherwise its lines are exactly the height row lines of the current buffer |
| `Canvases.Canvas.ToPpm` | src/canvas.rs:48-50 | its lines are "P3", "width height", "255", the body lines (one empty line if height is 0), and an empty final piece (trailing newline) |
| `Canvases.CreatingCanvas` | src/canvas.rs:59-68 | a new 10 x 20 canvas has width 10, height 20 and every pixel equal to the first |
| `Canvases.WritingPixels` | src/canvas.rs:70-79 | after writing red at (2, 3), reading (2, 3) gives red |
| `Canvases.ConstructingHeader` | src/canvas.rs:81-88 | the header of a new 5 x 3 canvas is "P3\n5 3\n255" |
| `Canvases.ConstructingPixelData` | src/canvas.rs:90-111 | after writing (1.5, 0, 0) at (0, 0), (0, 0.5, 0) at (2, 1) and (-0.5, 0, 1) at (4, 2), the body of a 5 x 3 canvas is exactly the expected three lines |

## Left out

- Floating-point behaviour is not modelled. All fields are `real`, so the model has no f64/f32 rounding, no precision difference between `Tuple` (f64) and `Color` (f32), and no NaN or infinity.
- Division by zero is excluded by a precondition. The source's tuple division, colour division and normalisation of a zero tuple produce infinities or NaN instead.
- `ApproxEq` is false on NaN in the source. The model has no NaN, so this case does not arise.
- `ChannelByte` does not model the NaN channel, which Rust's cast turns into 0. It also does not model rounding in the f32 product `c * 255.`.
- The square root in the cached `magnitude` is not computed, because Dafny reals have none. The magnitude is described by `IsMagnitude`.
- `Tuples.Normalize` receives the magnitude as a parameter instead of reading a cached field.
- `Canvases.Canvas.GetPixel` requires 0 ≤ x and 0 ≤ y, which the source does not check. A negative x in the source's i32 index arithmetic can alias into the previous row.
- `Canvases.Canvas.SetPixel` requires 0 ≤ x and 0 ≤ y, for the same reason.
- `Canvases.Canvas.constructor` takes `nat` dimensions, so negative sizes are not modelled. In the source they behave as follows:
  - One negative and one positive dimension: the `as usize` cast sign-extends the negative `i32` product to a huge size, and `vec!` panics with a capacity overflow.
  - Two negative dimensions: the product is positive, so a canvas is built. `Canvas::new(-2, -3)` holds 6 pixels, its header is "P3\n-2 -3\n255", and its body is "" because `0..-3` is empty.
  - A negative dimension beside a zero one: the buffer is empty, and the header shows the negative number.
- The i32 overflow of `width * height` and of `y * width + x` is not modelled. Dimensions are unbounded naturals.
- The generic `Into<f64>` constructors are not modelled, because they only convert the argument type. The `Debug`, `Clone` and `Copy` derives carry no behaviour.
- `src/main.rs` is not part of this model. It is a demo driver that plots a diagonal, writes `out.ppm` and opens a viewer: file and process I/O.
- PPM lines are not wrapped at 70 characters, because the source does not wrap them either.
