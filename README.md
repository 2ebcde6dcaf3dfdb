# fill-calc: coordinate arithmetic for the `/fill` command

This project is a Dafny model of `coord_calc.py`. That program takes the two
corners of a Minecraft `/fill` region, each an `(X, Y, Z)` list of integers. It
can expand or contract the X/Z footprint, shift the region up or down, and set
the height to an exact number of blocks. It can then adopt the results as the
new active corners.

Modules, one per part of the program:

- `Text` (text.dfy): the string operations the program uses.
  - `str.replace(" ", "")` is `RemoveSpaces`.
  - `str.split(",")` is `Split`.
  - `int()` is `ParseInt`, over a simplified grammar: an optional `+` or `-`, then one or more ASCII digits.
  - `int()` on a line typed at a prompt is `ReadInt`: spaces around the number are ignored.
  - `Join` and `FormatInt` are partners used to state round trips.
- `Coordinates` (coordinates.dfy): the indexes `X`, `Y`, `Z`, the pair of corners, and the six `/fill` arguments in order.
- `Input` (input.dfy): the acceptance rule of `set_coord`. Both lines are accepted exactly when every comma-separated piece of each, spaces removed, is a whole number and each line holds three of them.
- `Adjust` (adjust.dfy): `adj_coord` as a function.
  - On X and on Z, the larger value moves out by the signed amount and the smaller moves the other way. The centre stays where it is, and the gap changes by twice the amount. Equal values stay put.
  - Y is copied.
  - The round trips are proved. For a non-negative amount, expand then contract always restores the corners. Contract then expand restores them exactly when no axis collapses or crosses.
- `Menu` (menu.dfy): one pass of the loop in `main`, as the class `Calculator`.
  - The class holds the active lists `fg` and `sg` as arrays.
  - The lists `nfg` and `nsg` are fresh arrays. The height shift and the height range write into them in place.
  - The pure functions `Start`, `ShiftHeight`, `SetRange`, `Pass` and `Results` specify what a pass computes.
  - `Step` says when the active corners change: on `r`, and on a yes to replace. It also says that the lists active before the pass are never written.

Three facts about the program that the model makes explicit:

- A height entry that is not a whole number sets the shift to 0 without re-prompting (coord_calc.py:125-130, `Menu.HeightAdjustment`).
- Contracting then expanding by the same amount restores the corners only when, on each of X and Z, the values were equal or more than twice the amount apart (`Adjust.ContractThenExpand`).
- Nothing stops the amount from being negative (coord_calc.py:58-62). A negative amount can break even expand-then-contract, when it makes an axis meet or cross: an axis comes back exactly when its two values are equal or more than twice the size of the amount apart (`Adjust.ExpandThenContractAnyAmount`, `Adjust.NegativeAmountBreaksRoundTrip`).

## Model

| member | source | states |
|---|---|---|
| `Text.RemoveSpaces` | coord_calc.py:29-30 | every space is removed and no other character is: the result is shorter by exactly the number of spaces, holds every other character of the input and no space, and text without spaces is returned unchanged |
| `Text.RemoveSpacesConcat` | coord_calc.py:29-30 | removing spaces from a concatenation is removing them from each part and concatenating, so the other characters keep their order and their number |
| `Text.RemoveSpacesIdempotent` | coord_calc.py:29-30 | removing spaces twice is the same as once |
| `Text.TrimLeft` | coord_calc.py:58 | the result is a suffix of the input, everything cut off is a space, and the result does not start with a space |
| `Text.TrimRight` | coord_calc.py:58 | the result is a prefix of the input, everything cut off is a space, and the result does not end with a space |
| `Text.ReadInt` | coord_calc.py:58 | a line typed at a number prompt reads as a number exactly when, spaces around it removed, it is a whole number; a line without spaces reads as `ParseInt` reads it |
| `Text.ReadIntSpaceBefore` | coord_calc.py:126 | a space in front of the number does not change what is read |
| `Text.ReadIntSpaceAfter` | coord_calc.py:142 | a space after the number does not change what is read |
| `Text.Split` | coord_calc.py:32-33 | splitting on a comma gives one piece more than there are commas, and no piece holds a comma |
| `Text.JoinSplit` | coord_calc.py:32-33 | joining the pieces of a split with the separator gives back the text |
| `Text.SplitJoin` | coord_calc.py:32-33 | splitting a join of comma-free pieces gives back exactly those pieces |
| `Text.ParseInt` | coord_calc.py:32-33 | a piece reads as a whole number exactly when it is an optional sign followed by digits; a leading `-` gives a value of at most 0, otherwise at least 0 |
| `Text.ParseFormat` | coord_calc.py:32-33 | every integer is read back from its decimal text |
| `Text.FormatParse` | coord_calc.py:32-33 | a canonically written integer (no leading zero, no `+`, no `-0`) reads as a number that is written back as the same text |
| `Text.ParseLeadingZero` | coord_calc.py:32-33 | a leading zero does not change the value, so "007" reads as 7 |
| `Text.ParseSigned` | coord_calc.py:32-33 | a `+` sign keeps the value of the digits after it and a `-` sign negates it, so "+7" reads as 7 and "-0" as 0 |
| `Input.ParseAll` | coord_calc.py:32-33 | the list comprehension succeeds exactly when every piece is a whole number, and then gives one value per piece, in order |
| `Input.AcceptCoords` | coord_calc.py:28-40 | the two lines are accepted exactly when all pieces of both are whole numbers and each line has three pieces; a bad piece in either line is the "whole numbers" error, otherwise a wrong count is the "three values" error; accepted corners are the parsed pieces, and each line then holds exactly two commas |
| `Input.SpacesIgnored` | coord_calc.py:29-30 | spaces anywhere in either line do not change whether, or to what, the lines are accepted |
| `Input.AcceptFormatted` | coord_calc.py:24-26 | any two corners typed as `X,Y,Z` lines are accepted and read back unchanged |
| `Coordinates.FillArgs` | coord_calc.py:103 | the six printed values (coord_calc.py:103, 154) are the three values of the first corner followed by the three of the second, the order `/fill` takes them in |
| `Adjust.AdjAxis` | coord_calc.py:69-77 | on one axis the centre of the two values is kept, and their signed gap grows by twice the amount in the direction of their order (not at all when they are equal) |
| `Adjust.AdjCoord` | coord_calc.py:43-94 | both results have three values, both Y values are copied, and X and Z are each moved apart by the entered amount (negated to contract) |
| `Adjust.MovedApartUnique` | coord_calc.py:69-77 | the centre-and-gap description of an axis determines its result uniquely |
| `Adjust.EqualAxisFixed` | coord_calc.py:75-77 | equal values on an axis are left unchanged whatever the amount |
| `Adjust.ExpandWidens` | coord_calc.py:69-74 | expanding by a non-negative amount keeps the order of the two values and widens a non-zero gap by exactly twice the amount |
| `Adjust.ExpandContractAxis` | coord_calc.py:62-77 | on one axis, expanding then contracting by the same non-negative amount restores the values |
| `Adjust.ContractExpandAxis` | coord_calc.py:62-77 | on one axis, contracting then expanding by the same amount, of any sign, restores the values if and only if they were equal or more than twice the amount apart |
| `Adjust.ContractCollapses` | coord_calc.py:69-77 | contracting by half the gap makes the values meet, after which no adjustment moves them |
| `Adjust.ContractCrosses` | coord_calc.py:69-74 | contracting by more than half the gap reverses the order of the values |
| `Adjust.ExpandThenContract` | coord_calc.py:62-94 | expanding then contracting both corners by the same non-negative amount gives back both corners |
| `Adjust.ContractThenExpand` | coord_calc.py:62-94 | contracting then expanding both corners by the same amount, of any sign, gives them back if and only if, on X and on Z, the values were equal or more than twice the amount apart |
| `Adjust.ExpandThenContractAnyAmount` | coord_calc.py:58-94 | expanding then contracting both corners by the same amount, of any sign, gives them back if and only if, on X and on Z, the values were equal or more than twice the negated amount apart; so a non-negative amount always passes |
| `Adjust.NegativeAmountBreaksRoundTrip` | coord_calc.py:58-62 | with amount -1, expanding and then contracting (1,0,0),(0,0,0) gives (-1,0,0),(2,0,0): the X values cross, so the round trip fails |
| `Adjust.DocumentedExample` | coord_calc.py:12-13 | the corners of the documented example, (-75,92,-864) and (-117,92,-900), expanded by 5 give (-70,92,-859),(-122,92,-905) |
| `Menu.CommandOf` | coord_calc.py:105-123 | the options e, c, n, r and q each select their own command (the one `OptionText` writes as that letter), and every other text is an invalid selection |
| `Menu.CommandOfOptionText` | coord_calc.py:108-123 | every command other than the invalid selection is reached by its option letter |
| `Menu.IsYes` | coord_calc.py:138 | a yes answer ("y" or "yes") starts with y, so it is never a no answer |
| `Menu.IsNo` | coord_calc.py:163 | a no answer ("n" or "no") starts with n, so it is never a yes answer |
| `Menu.Settled` | coord_calc.py:28-40 | the lines that end the retry loops (coord_calc.py:28-40, 56-63, 139-151, 156-166): a reset holds two accepted three-value corners, a requested range has a blocks-high count of at least 1, and the replace answer is exactly one of yes and no |
| `Menu.HeightAdjustment` | coord_calc.py:125-130 | the height shift is the number read from the entry, spaces around it ignored, or 0 when the entry is not a whole number |
| `Menu.RangeOffset` | coord_calc.py:139-151 | the blocks-high entry is accepted exactly when, spaces around it ignored, it is a whole number of 1 or more, and the offset is then one less than it |
| `Menu.Start` | coord_calc.py:108-114 | the lists a pass starts from have three values each, whether they come from `adj_coord` or are copies |
| `Menu.ShiftHeight` | coord_calc.py:132-134 | the height shift moves the first Y by the adjustment, keeps the difference between the two Y values, and leaves X and Z alone |
| `Menu.SetRange` | coord_calc.py:147-151 | the height range keeps the first corner, puts the second Y at the first Y plus the offset (so never below it), and leaves the second X and Z alone |
| `Menu.Pass` | coord_calc.py:108-151 | the results computed from the values read at the prompts have three values each |
| `Menu.Results` | coord_calc.py:108-151 | the results of a pass have three values each |
| `Menu.ResultsKeepFootprint` | coord_calc.py:108-151 | X and Z of the results are those `adj_coord` computed (for `n`, the active values): the height prompts never touch them |
| `Menu.ResultsHeightShift` | coord_calc.py:125-134 | without a range, both Y values move by the height adjustment and their difference is kept |
| `Menu.ResultsHeightRange` | coord_calc.py:137-151 | with a range of `count` blocks, count is at least 1, the first Y is shifted, and the second Y is count - 1 above it; with count 1 they are equal |
| `Menu.NeitherIsCopy` | coord_calc.py:112-114 | option `n` with no height change and no range gives the active corners back |
| `Menu.ComputeResults` | coord_calc.py:108-151 | the lists a pass computes are fresh and hold exactly `Pass` of the values read; the active lists are only read |
| `Menu.Calculator.constructor` | coord_calc.py:99 | the initial active corners are the two lines `set_coord` accepted |
| `Menu.Calculator.ResetCorners` | coord_calc.py:115-116 | option `r` makes the active lists fresh lists holding exactly the two lines `set_coord` accepted |
| `Menu.Calculator.ComputePass` | coord_calc.py:125-164 | the results line shows `Pass` of the values read (first corner, then second); a yes to replace makes the active corners exactly those results in fresh lists, a no keeps the active lists; the lists active before the pass are never written |
| `Menu.Calculator.Step` | coord_calc.py:101-166 | `q` ends the loop; `r` installs fresh lists holding the accepted lines; an invalid option and a no to replace keep the active lists; for `e`, `c` and `n` the results line shows `Results` (first corner, then second), and a yes to replace makes the active corners exactly those results; the lists active before the pass are never written |

## Left out

- Console I/O is left out: the prompts, the printed lines and the error messages. The two start-up lines `set_coord` reads (coord_calc.py:99) are the parameters of the `Menu.Calculator` constructor; every entry of a pass is a field of `Menu.Answers`.
- The retry loops are left out (coord_calc.py:28-40, 56-63, 139-146, 156-166). `Menu.Settled` states what the line that ends each one satisfies, and `Step` takes those lines.
- `strip().lower()` of the option and of the yes/no answers is left out. The answers are taken as already stripped and lower-cased.
- `Text.ParseInt` and `Text.ReadInt` do not model the whole of Python's `int()`. `ReadInt` ignores spaces around the number, as `int()` does, at the amount, height and blocks-high prompts. Other surrounding whitespace (tabs, for one), underscores between digits and non-ASCII digits are rejected here, though `int()` accepts them. The effect: such an amount or blocks-high entry is taken to be re-prompted, and such a height entry becomes a shift of 0, where the program reads the number. The coordinate lines are affected the same way: the program accepts "1,\t2,3", since `int()` skips the tab (coord_calc.py:32), but `Input.AcceptCoords` turns it down. In the other direction, `int()` refuses a text of more than 4300 digits, which `ParseInt` reads. That grammar belongs to the Python runtime, which is not part of this model.
- The process-level `while True` loop and the program exit are left out (coord_calc.py:101, 118-120, 169-170). `q` is a terminal state: `running` becomes false, and `Step` requires `running`.
- The `/fill` command itself is left out. Only its argument order is kept, in `Coordinates.FillArgs`.
- `Input.ParseAll` does not model the point at which Python stops. Python stops at the first piece that fails to parse; the model reads all pieces. The outcome is the same error.
