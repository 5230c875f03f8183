# PagerBundle pagination calculator, in Dafny

This project models the pager of PagerBundle, a small Symfony bundle. Given a request URI and a page-size specification, `Pager::getPagerProps` works out five values and stores them in a fresh `PagerProps` object:

- the current page, read from the URI's `page` parameter;
- the link template, which is the URI with the page parameter stripped and a `?` or `&` appended;
- the number of records per page, given as an int literal or as a settings key;
- the SQL offset of the first record;
- the number of pages, computed from the record count reported by the data source.

The Twig filter `page` turns a template back into a page link.

Files and modules:

- `wrappers.dfy` (`Wrappers`): `Option` (PHP null) and `Result` (a value or a thrown exception).
- `decimal.dfy` (`Decimal`): the `\d` character class, the number that a run of digits denotes, the longest digit prefix (a greedy `\d+`), and PHP's decimal string form of an int.
- `pager_props.dfy` (`PagerPropsEntity`): class `PagerProps`. It has five fields that start unset (`None`), fluent setters that overwrite one field in place and return the receiver, and getters.
- `pager.dfy` (`PagerService`): the calculator's helpers as functions, and class `Pager` with the imperative `GetPagerProps`. It also holds the lemmas about the URI scanners, the offset and the page count.
- `pager_twig.dfy` (`PagerTwig`): `PageFilter`, `GetName`, and the round trip from template to link to current page.
- `pager_examples.dfy` (`PagerExamples`): the cases of `Tests/Services/PagerTest.php`, together with its fixtures. The settings fixture is `records_per_page => 5, invalid_setting => 'foo'`. The counter fixture (`TestHelpers/PageableParser.php`) reports 11 records, plus `add` when that argument is given. The suite's URIs use the host `http://test.com`. The example lemmas hold for every host that contains no `g`, because `page=` cannot occur in such a host.

Collaborators become parameters:

- The settings store is a partial map `map<string, V>` from key to value. A missing key yields `SettingNotFound`.
- PHP's `intval` on setting values is the function parameter `intval: V -> int`.
- The record counter (`PageableInterface::getNumberOfRecords`) is a function `A -> int` of the additional arguments. The additional arguments are passed to it unchanged.

The two `preg_*` calls are written as scanners for their two specific patterns:

- `/[\?&]page=(\d+)/` finds the leftmost `?page=` or `&page=` followed by a digit, and reads the whole digit run after it.
- `/page=\d+?&?/` uses a lazy `\d+?`, so each match is `page=` plus exactly one digit plus an optional `&`. Matches are removed left to right and do not overlap. Nothing anchors them to `?` or `&`.

Where the code and its comments differ, or where it does less than one would expect, the model follows the code:

- **The strip removes one digit, not the whole number.** The comment on `Services/Pager.php:124` says the whole number is removed. For page 12 the template keeps the `2`: `?page=12&a=1` becomes `?2&a=1&` (`MultiDigitPageLeavesDigits`, `MultiDigitUriExample`). The current page is still read from all the digits.
- **A template can still hold a page parameter.** The strip is not anchored and makes a single pass, so it can join two fragments into a new parameter. `?pagpage=1e=2` gives the template `?page=2&`, and a link made from that template reads as page 2 whatever page it was made for (`TemplateMayKeepPageParamExample`). The round trip therefore requires a template with no page parameter of its own (`PageFilterRoundTrip`).
- **The page number is not checked.** `?page=0` is page 0, and its offset is minus one page size (`PageZeroExample`).
- **A literal page size is not checked.** Only a page size read from the settings must be positive. A literal is used as it is, including 0, -1 and other negative values.
- **`PagerProps` is mutable.** It is a class whose setters write in place. Its fields read `None` until they are set.
- **The error for a bad setting is `WrongSettingType(key, "integer")`,** as thrown by the code.

## Model

| member | source | states |
|---|---|---|
| Decimal.DigitRun | Services/Pager.php:108 | the digits captured by the greedy `(\d+)`: the longest prefix of the input made of digits, followed by the end of the input or by a non-digit |
| Decimal.NatToString | Twig/PagerTwigExtension.php:14 | PHP's decimal form of a non-negative int: non-empty, digits only, denotes the number, and is either `0` or starts with a non-zero digit |
| Decimal.NatToStringCanonical | Twig/PagerTwigExtension.php:14 | that form is unique: every non-empty digit string that is `0` or has no leading zero is the decimal form of the number it denotes |
| Decimal.IntToString | Twig/PagerTwigExtension.php:14 | PHP's string form of an int: for n ≥ 0 the decimal form of n; for n < 0 a `-` followed by the decimal form of -n; in both cases the digits denote the magnitude |
| Decimal.DigitRunOfDigits | Services/Pager.php:108 | a digit string followed by a non-digit or by the end is captured whole |
| PagerService.FindPageToken | Services/Pager.php:108-109 | the left-to-right search returns the leftmost position where `[\?&]page=\d` matches, or reports that it matches nowhere |
| PagerService.CurrentPage | Services/Pager.php:106-114 | with no `?page=<digit>` or `&page=<digit>` in the URI the result is 1; otherwise it is the number denoted by the whole digit run after the first such occurrence |
| PagerService.StripPage | Services/Pager.php:124-125 | removing matches of `page=\d+?&?` never lengthens the URI |
| PagerService.StripPageKeepsCleanUri | Services/Pager.php:124-125 | a URI in which `page=<digit>` occurs nowhere is left unchanged |
| PagerService.StripPageShortensIffMatch | Services/Pager.php:124-125 | the strip removes something if and only if `page=<digit>` occurs somewhere in the URI |
| PagerService.StripPageRemovesFirstMatch | Services/Pager.php:124-125 | at the first occurrence of `page=<digit>`, wherever it is, the strip keeps the text before it, drops `page=`, the digit and one following `&` if present, and carries on with the rest |
| PagerService.StripPageSkipsPlainPrefix | Services/Pager.php:124-125 | text that contains no `p` passes through the strip unchanged |
| PagerService.AppendCharacterToUri | Services/Pager.php:134-144 | the URI plus the suffix always has a `?` and ends in `?` or `&`; the suffix is `?` exactly when the URI has no `?`, empty exactly when the URI already has that form, and `&` otherwise |
| PagerService.AppendCharacterToUriIdempotent | Services/Pager.php:134-144 | after the suffix has been appended, appending again adds nothing |
| PagerService.UriWithoutPage | Services/Pager.php:122-128 | the template always has a `?` and ends in `?` or `&`; it is the stripped URI plus at most one character |
| PagerService.PageParamAfterSeparator | Services/Pager.php:106-125 | when `page=<digit>` follows the `?` or `&` ending a part that has no `page=`, that parameter is the first match of both regexes, and the current page is read from it |
| PagerService.SingleDigitPageUri | Services/Pager.php:106-128 | for `base` + `?`/`&` + `page=<d>` + (nothing, or `&` + query), the current page is d and the strip leaves `base` + separator + query |
| PagerService.MultiDigitPageLeavesDigits | Services/Pager.php:124 | with a page number of two or more digits, the current page is the whole number, but the strip removes only the first digit and leaves the others in the template |
| PagerService.NoPageKeyAcrossSeparator | Services/Pager.php:108 | a `page=` cannot straddle a `?` or `&` |
| PagerService.RecordsPerPage | Services/Pager.php:154-165 | a literal comes back unchanged (0 and -1 included); a missing key gives SettingNotFound; a key whose value converts to an int ≤ 0 gives WrongSettingType(key, "integer"); otherwise the converted value, which is positive |
| PagerService.FirstResult | Services/Pager.php:92-98 | the offset is 0 whenever the page size is -1, for every page |
| PagerService.FirstResultIsPageStart | Services/Pager.php:92-98 | for page ≥ 1 and size > 0 the offset is a non-negative multiple of the size, dividing it by the size gives page - 1, and the next page starts exactly one size later |
| PagerService.CeilDiv | Services/Pager.php:83 | the exact ceiling k of n / d: (k-1)·d < n ≤ k·d for d > 0, and the mirror-image inequalities for d < 0 |
| PagerService.NumberOfPages | Services/Pager.php:71-85 | 0 pages for size 0 and 1 page for size -1; for size > 0 the count k of the records satisfies (k-1)·size < count ≤ k·size |
| PagerService.NumberOfPagesIsLeast | Services/Pager.php:82-84 | for size > 0 and a count ≥ 0, the page count is non-negative and no larger than any k with k·size ≥ count, so it is the least such k |
| PagerService.NumberOfPagesIgnoresCounter | Services/Pager.php:76-81 | for size 0 or -1, any two counters and any two argument sets give the same page count, so the counter is not consulted |
| PagerService.PageInRangeIffOffsetBeforeEnd | Services/Pager.php:71-98 | pages are not validated: for size > 0, page p is within the page count if and only if its offset is before the last record |
| PagerService.Pager.constructor | Services/Pager.php:25-28 | the pager keeps the settings store it is given |
| PagerService.Pager.GetPagerProps | Services/Pager.php:42-60 | a page-size error is returned as it is, whatever the counter; otherwise the result is a fresh PagerProps whose five fields hold the five helper results, with the additional arguments passed to the counter; size -1 gives offset 0 and one page; the stored template has a `?` and ends in `?` or `&` |
| PagerPropsEntity.PagerProps.constructor | Entity/Perishable/PagerProps.php:4-29 | a new holder has all five fields unset |
| PagerPropsEntity.PagerProps.SetCurrentPage | Entity/Perishable/PagerProps.php:35-39 | writes currentPage and returns the receiver; its frame allows no other field to change |
| PagerPropsEntity.PagerProps.GetCurrentPage | Entity/Perishable/PagerProps.php:44-47 | returns what was last set and changes nothing |
| PagerPropsEntity.PagerProps.SetUriWithoutPage | Entity/Perishable/PagerProps.php:53-57 | writes uriWithoutPage and returns the receiver; its frame allows no other field to change |
| PagerPropsEntity.PagerProps.GetUriWithoutPage | Entity/Perishable/PagerProps.php:62-65 | returns what was last set and changes nothing |
| PagerPropsEntity.PagerProps.SetRecordsPerPage | Entity/Perishable/PagerProps.php:71-75 | writes recordsPerPage and returns the receiver; its frame allows no other field to change |
| PagerPropsEntity.PagerProps.GetRecordsPerPage | Entity/Perishable/PagerProps.php:80-83 | returns what was last set and changes nothing |
| PagerPropsEntity.PagerProps.SetFirstResult | Entity/Perishable/PagerProps.php:89-93 | writes firstResult and returns the receiver; its frame allows no other field to change |
| PagerPropsEntity.PagerProps.GetFirstResult | Entity/Perishable/PagerProps.php:98-101 | returns what was last set and changes nothing |
| PagerPropsEntity.PagerProps.SetNumberOfPages | Entity/Perishable/PagerProps.php:107-111 | writes numberOfPages and returns the receiver; its frame allows no other field to change |
| PagerPropsEntity.PagerProps.GetNumberOfPages | Entity/Perishable/PagerProps.php:116-119 | returns what was last set and changes nothing |
| PagerTwig.PageFilter | Twig/PagerTwigExtension.php:12-15 | the link is the template, then `page=`, then the page number in decimal; the template is a prefix, and the length is the template's length + 5 + the number's length |
| PagerTwig.GetName | Twig/PagerTwigExtension.php:17-20 | the extension's name is always `pager_extension` |
| PagerTwig.PageFilterRoundTrip | Twig/PagerTwigExtension.php:14 | for a template ending in `?` or `&` that holds no `[?&]page=<digit>` of its own, the link for page n ≥ 0 reads back as page n |
| PagerTwig.CleanUriLinksRoundTrip | Twig/PagerTwigExtension.php:14 | a request URI without `page=` is on page 1, and every link made from its template reads back as the page it was made for |
| PagerExamples.PlainUriExample | Tests/Services/PagerTest.php:35-44 | `?a=1&b=2` is on page 1 and its template is `?a=1&b=2&` |
| PagerExamples.PageNumberUriExample | Tests/Services/PagerTest.php:46-53 | `?page=2` is on page 2 and its template ends at the `?` |
| PagerExamples.PageNumberAndQueryUriExample | Tests/Services/PagerTest.php:62-71 | `?page=2&a=1` is on page 2 and its template is `?a=1&` |
| PagerExamples.PageZeroExample | Services/Pager.php:92-114 | page numbers are not validated: `?page=0` is page 0, and for every page size > 0 its offset is -size, before the first record |
| PagerExamples.MultiDigitUriExample | Services/Pager.php:124 | `?page=12&a=1` is on page 12 but its template is `?2&a=1&` |
| PagerExamples.TemplateMayKeepPageParamExample | Services/Pager.php:122-128 | `?pagpage=1e=2` is on page 1, its template is `?page=2&`, and the link for page 5 made from that template reads as page 2 |
| PagerExamples.RecordsPerPageExamples | Tests/Services/PagerTest.php:62-88 | literal 10 and -1 are kept; `records_per_page` gives 5; `invalid_setting` (`'foo'`) gives WrongSettingType; an unknown key gives SettingNotFound |
| PagerExamples.OffsetAndPageCountExamples | Tests/Services/PagerTest.php:35-81 | the suite's offsets (0, 10, 5, and 0 with pagination off) and page counts (11 records over 10 gives 2, over 5 gives 3, 16 over 5 gives 4, size -1 gives 1) |
| PagerExamples.GetPagerPropsCase | Tests/Services/PagerTest.php:35-44 | through getPagerProps and the getters: `?a=1&b=2` with size 10 gives page 1, template `?a=1&b=2&`, size 10, offset 0 and 2 pages |
| PagerExamples.PageNumberCase | Tests/Services/PagerTest.php:46-53 | through getPagerProps and the getters: `?page=2` with size 10 gives page 2, template ending at `?`, offset 10 |
| PagerExamples.DisablePaginationCase | Tests/Services/PagerTest.php:55-60 | through getPagerProps: `?page=2` with size -1 gives offset 0 |
| PagerExamples.SettingCase | Tests/Services/PagerTest.php:62-71 | through getPagerProps and the getters: `?page=2&a=1` with the `records_per_page` setting gives page 2, template `?a=1&`, size 5, offset 5 and 3 pages |
| PagerExamples.AdditionalArgumentsCase | Tests/Services/PagerTest.php:73-81 | through getPagerProps: the `add => 5` argument reaches the counter, giving 16 records and 4 pages |
| PagerExamples.BadSettingCase | Tests/Services/PagerTest.php:83-88 | through getPagerProps: the `invalid_setting` key fails with WrongSettingType(`invalid_setting`, `integer`) |

## Left out

- Template-engine registration (`getFilters`, `Twig_Extension`, `Twig_SimpleFilter`) is plumbing of the template engine, not logic.
- The settings subsystem (`SettingsRetriever`) is a partial map. PHP's `intval` on its values is the parameter `intval`, and the examples give it the two values of the test fixture.
- General PHP regular expressions are not modelled. Only the two patterns the pager uses are written out as scanners.
- `Pager.GetPagerProps` computes the page count exactly. PHP divides in floating point and applies `ceil`, which can round differently when the magnitudes are very large.
- PagerService.FirstResult: computes the exact product `(page - 1) * size`. PHP turns a product that overflows a 64-bit int into a float, even when both factors fit (for example page 922337203685477581 with size 10); that float offset is not modelled.
- `PagerService.CurrentPage` returns the number, not the digit string that PHP's `getCurrentPage` returns. PHP's loose typing turns that string into a number wherever it is used. Digit strings too long for a PHP int, which PHP turns into a float, are not modelled.
- The page-size specification is an int or a string key. Other PHP types (a float, an array) are not modelled.
- The record counter is a function of its arguments. It cannot throw and has no side effects. Each call site calls it at most once, and whether it is consulted is stated as "the result does not depend on it".
- `Interfaces/PageableInterface.php` declares the counter and holds no logic. The parameter type `A -> int` stands for it.
- The fixture counter `TestHelpers/PageableParser.php` is `PagerExamples.FixtureParser`, which is used only by the examples.
