# Admonition filter, rectangle and multiplication examples, in Dafny

This project models the three pieces of logic of a small teaching
repository about Python:

- the pandoc filter of its document theme, whose per-node `action` turns a
  `Div` whose first class is `remarque`, `conseils`, `attention` or
  `definition` into a LaTeX `\begin{...}` raw block, the Div's children
  unchanged and in order, and a matching `\end{...}` raw block
  (`filter.dfy`, module `Filter`);
- the `Rectangle` class, with its constructor and its defaults, the area
  query `calcule_surface` and the in-place mutator `change_carre`
  (`rectangle.dfy`, module `Rectangles`);
- the function `multiplie_nombres`, an integer product, and the two calls
  of its demonstration block (`multiplication.dfy`, module `Multiplication`).

Pandoc elements are a closed datatype `Node` (`Div`, `RawBlock`, `Other`).
The filter's result is an `Outcome`: `Keep` for Python's `None`, `Replace`
for the list of blocks, and `Raised(IndexError)` for the exception the code
raises on a Div with no class. A guarded rewrite would treat such a Div as
no match; the code as written raises, and the model follows the code. The admonition set is the constant
`Filter.Admonitions`, exactly the four names above. `r"\begin{%s}" % c` is
modelled as the literal concatenation `Begin(c)`, and likewise `End(c)`.

The rewrite is paired with an inverse, `Unwrap`, which reads the category
name and the children back from a replacement; the two round-trip lemmas
connect them in both directions. `Rectangle` is a class whose fields are
assigned in place. Its state as a value is `State()`, and the methods are
specified against the value-level functions `Area` and `Squared`. The
product is compared with an independent definition by repeated addition.

## Model

| member | source | states |
|---|---|---|
| Filter.Action | pandoc-theme/filter.py:7-13 | a Div with no class raises IndexError; a Div whose first class is an admonition is replaced by blocks of length `|content| + 2`: a LaTeX begin marker for that class, the content unchanged and in order, and a LaTeX end marker for the same class; every other node is kept |
| Filter.Begin | pandoc-theme/filter.py:10 | the opening marker is `\begin{` followed by the class name and `}` |
| Filter.End | pandoc-theme/filter.py:12 | the closing marker is `\end{` followed by the class name and `}` |
| Filter.MarkersDistinct | pandoc-theme/filter.py:10-12 | distinct names give distinct markers, and no opening marker equals a closing one |
| Filter.ActionIgnoresDoc | pandoc-theme/filter.py:7-13 | the `doc` argument does not affect the result |
| Filter.OnlyFirstClassMatters | pandoc-theme/filter.py:8 | only the first class is consulted: later classes never change the outcome, so a non-admonition first class is kept even if a later class is an admonition |
| Filter.ErrorOnlyOnEmptyDiv | pandoc-theme/filter.py:8 | a non-Div is always kept; a Div with an empty class list raises IndexError |
| Filter.UnwrapAction | pandoc-theme/filter.py:8-13 | for an admonition class, the replacement is produced and `Unwrap` recovers exactly the class and the original children from it |
| Filter.ActionUnwrap | pandoc-theme/filter.py:9-13 | any block list that `Unwrap` reads as an admonition name with children is exactly what the rewrite produces for a Div of that class with those children |
| Rectangles.Squared | data/rectangle.py:17-20 | squaring sets both dimensions to the side and keeps the colour |
| Rectangles.SquaredIdempotent | data/rectangle.py:19-20 | squaring twice with the same side gives the state of squaring once |
| Rectangles.SquaredArea | data/rectangle.py:15-20 | a square of side `cote` has area `cote * cote`, which is non-negative |
| Rectangles.Rectangle.constructor | data/rectangle.py:4-11 | the new object holds exactly the given length, width and colour |
| Rectangles.Rectangle.CalculeSurface | data/rectangle.py:13-15 | the result is the area of the current state, non-negative for non-negative dimensions; no field changes |
| Rectangles.Rectangle.ChangeCarre | data/rectangle.py:17-20 | the new state is the old one squared: both dimensions equal `cote`, the colour is unchanged, and the area is then `cote * cote` |
| Rectangles.NewDefault | data/rectangle.py:4 | a rectangle built with no arguments has length 0, width 0, colour "blanc" and area 0 |
| Rectangles.ChangeCarreTwice | data/rectangle.py:17-20 | two calls of `change_carre` with the same side leave the state of one call |
| Multiplication.MultiplieNombres | data/script-quality-ok.py:4-25 | the integer product is zero exactly when one of the factors is zero |
| Multiplication.RepeatedSumIsProduct | data/script-quality-ok.py:25 | adding `b` to itself `n` times gives `n * b` |
| Multiplication.MultiplieIsRepeatedAddition | data/script-quality-ok.py:4-25 | the product equals repeated addition of the second factor, negated for a negative first factor, and is symmetric in its arguments |
| Multiplication.DemoExamples | data/script-quality-ok.py:28-30 | the demonstration values: 2 x 3 = 6 and 4 x 5 = 20 |

## Left out

- `main` in pandoc-theme/filter.py: reading the document from standard input, panflute's tree walk that splices the replacement into the parent, and writing the result are the host library's I/O and traversal, not code of this repository; only `action` on one node is modelled.
- Panflute's element class hierarchy and its `isinstance` dispatch are replaced by the closed datatype `Node`; element kinds other than `Div` and `RawBlock` are one variant, `Other`.
- Python's `%` string formatting is modelled only for the literal substitution of the class name into the markers.
- Rectangle dimensions are `real`: IEEE float rounding, overflow and non-numeric arguments (Python does not check argument types) are not modelled.
- The `__main__` block of data/rectangle.py has only comments and no behaviour; the `print` calls of data/script-quality-ok.py are kept only as the values in `DemoExamples`.
