# ares: company lookup by IČO, modelled in Dafny

The program takes a Czech company identification number (IČO), normalises it and
checks its mod-11 checksum. It then reads the company's record from the ARES
business registry and picks the company's VAT number (DIČ) out of the registry's
search by company name. The record is written as one `;`-separated line with the
name wrapped onto two 35-character lines. A second service, the tax authority's,
reports whether a VAT payer is reliable.

The model follows the code file by file:

- `companies.dfy`, module `Companies`: the `Company` class of `Program.cs`.
  - It is a Dafny `class` with the same ten fields.
  - `GetName1`/`GetName2` keep the source's `do … while` loop. They are proved equal to the closed forms `NameLine1`/`NameLine2`, which cut at the last space before position 35.
  - The street line, the `dd.MM.yy` date, the serialised line, the checksum loop of `isValidIdno` and the padding of `formatIco` are modelled too.
- `aresapi.dfy`, module `AresApi`: `AresAPI.getCompanyByIdno`, `parseTextAddress` and `getTaxno`.
  - Each is an imperative method over a `Company`, proved against a function on record values: `Assemble`, `Backfill`, `SelectTaxno`.
  - The registry's XML answer is represented by what the code reads from it:
    - the parsed record count;
    - the inner text of the first element of each name;
    - for the name search, the `dtt:S` entries in document order, each with its optional `ico` and `p_dph` texts.
- `textaddress.dfy`, module `TextAddress`: the free-text address regular expression `^([\p{L}\s]+)([0-9]+)/?([0-9]?)\s([0-9]{3}\s?[0-9]{2})\s?,\s?([\p{L}]+)`.
  - It is written as a deterministic matcher (`Match`).
  - It is proved to agree, in both directions, with a relational reading of the pattern (`Matches`). That reading takes the path a backtracking engine reports: greedy runs, optional parts taken when possible.
- `mfcrapi.dfy`, module `MfcrApi`: `MfcrAPI.getTaxpayerStatus`, the mapping of the `nespolehlivyPlatce` attribute to not-a-payer, reliable or unreliable.
- `text.dfy`, `calendar.dfy` and `outcomes.dfy`: the .NET string and date operations the code calls, and the exceptions it throws, modelled as `Result` values.

Where the code throws, the model returns `Err` with the exception's cause:

- `IcoInvalid` for "ICO is invalid.";
- `MultipleRecordsFound` for "Multiple records found.";
- `RecordCountUnreadable` when `Pocet_zaznamu` is missing or not a number;
- `ReliabilityAttributeMissing` for the null dereference when the status element has no attribute.

The network requests are parameters:

- the registry's answer for the IČO is a `RegistryResponse` value;
- the name search is a function `vatLookup` from the company name to its entries;
- the tax authority's answer is a function `lookup` from the VAT number to its status element.

The letter class `\p{L}` is a parameter `isLetter`. Where a proof needs it, the parameter is constrained to exclude ASCII digits and white space, as every Unicode letter category does.

A company that is not found gets the name "Nenalezeno" and nothing else. The serialised record has nine fields; there is no taxpayer-status label and no masking of the tax fields.

## Model

| member | source | states |
|---|---|---|
| Companies.WrapIndex | Program.cs:82-91 | the cut point of a long name is at most 35; at 35 no space lies before it, below 35 it is a space and no later space lies before position 35 |
| Companies.LastSpaceBelowWidth | Program.cs:84-87 | stripping the name back space by space until the last space lies below 35 ends at the last space of the first 35 characters |
| Companies.NameLine1 | Program.cs:78-94 | the first name line is a prefix of the name, at most 35 long, and the whole name when it fits |
| Companies.NameLine2 | Program.cs:96-112 | the second line is empty when the name fits, else a suffix of the name that does not start with white space |
| Companies.NameLinesCoverName | Program.cs:92-110 | line 1, a run of white space only, then line 2 make up the whole name: both lines cut at one point and nothing but white space is lost |
| Companies.WrapWithoutSpaces | Program.cs:89-91 | a 41-letter name without spaces is cut mid-word into 35 and 6 letters |
| Companies.WrapAtLastSpace | Program.cs:84-92 | a concrete long name is cut at its last space before position 35 and the second line loses its leading space |
| Companies.Company.constructor | Program.cs:61-76 | a new company has the given IČO, VAT prefix "CZ", every other text empty and the zero-tick date |
| Companies.Company.GetName1 | Program.cs:78-94 | the do-while loop returns exactly `NameLine1` of the name |
| Companies.Company.GetName2 | Program.cs:96-112 | the same loop, followed by `TrimStart`, returns exactly `NameLine2` of the name |
| Companies.StreetLine | Program.cs:114-122 | the street line is the street, one space and the house number, then, exactly when there is an orientation number, "/" and that number, and nothing else; when street and house number have no '/', it contains a '/' exactly when there is an orientation number |
| Companies.FormatCreated | Program.cs:124-127 | the date text is empty exactly for the zero-tick date 0001-01-01; otherwise it is 8 characters, dots at 2 and 5, and its three fields read back as day, month and year modulo 100 |
| Companies.Company.Serialize | Program.cs:129-141 | when no value contains ';', splitting the line at ';' gives back exactly the nine values idno, created, name lines 1 and 2, street line, city, zip, taxpf, taxno in this order |
| Companies.CheckDigit | Program.cs:173-185 | the check digit computed from the weighted sum modulo 11 is always a single digit |
| Companies.CheckDigitIsUnique | Program.cs:164-188 | any seven digits are completed to a valid IČO by exactly one eighth digit, the check digit |
| Companies.Company.IsValidIdno | Program.cs:164-188 | the loop accepts exactly the eight-digit strings whose last digit is the check digit of the weighted sum |
| Companies.Company.FormatIco | Program.cs:156-162 | success exactly when the '0'-padded input is a valid IČO; a longer than eight input always fails; the result is the input behind leading zeros; a valid IČO is returned unchanged, so the operation is idempotent |
| Companies.IcoExamples | Program.cs:156-188 | "25596641" is a valid IČO; "25" pads to "00000025", which is not |
| Text.LastIndexOf | Program.cs:85 | the result is -1 when the character is absent, else a position holding it with no later occurrence |
| Text.PadLeft | Program.cs:157 | the result has the width or the input's length when longer, ends with the input and is padding before it |
| Text.Split | AresAPI.cs:65 | splitting gives at least one part and no part contains the separator |
| Text.SplitJoin | Program.cs:140 | splitting a joined list whose parts are free of the separator gives the list back |
| Text.Join | Program.cs:140 | the joined text starts with the first part, and the separator follows it when there are more parts |
| Text.JoinSplit | AresAPI.cs:65 | joining the parts of a split with the separator gives back the text split |
| Text.ParseNat | AresAPI.cs:66-68 | a number is read exactly from a non-empty text of ASCII digits |
| Text.ParseDecimal | AresAPI.cs:66-68 | the decimal digits of a number read back as that number |
| Text.LeadingZeros | AresAPI.cs:66-68 | leading zeros change neither that a text is all digits nor the number it reads as |
| Text.TwoDigits | Program.cs:126 | a two-digit field is two ASCII digits whose value is the number |
| Text.RemoveAll | AresAPI.cs:145 | removing a pattern never lengthens the text and leaves a text without an occurrence unchanged |
| Text.RemoveAllSplits | AresAPI.cs:145 | an occurrence of the pattern with none starting before it is removed, the text before it kept, and the removal goes on after it |
| Text.RemoveSpaceBetween | AresAPI.cs:116 | removing the spaces from two space-free texts joined by one space joins them |
| Text.TrimDropsTrailingSpace | AresAPI.cs:115 | a trimmed text followed by one white space trims back to that text |
| Text.TrimStartIsSuffix | Program.cs:110 | `TrimStart` keeps a suffix of its input that does not start with white space, and drops only white space before it |
| Text.TrimEndIsPrefix | AresAPI.cs:112-117 | `TrimEnd` keeps a prefix of its input that does not end with white space, and drops only white space after it |
| Text.TrimIsTrimmedSlice | AresAPI.cs:112-117 | `Trim` gives a slice of its input with white space at neither end, and drops only white space on either side of it |
| Text.WhiteSpaceIsNoSeparator | AresAPI.cs:103 | a white-space character (`char.IsWhiteSpace`, the class `\s`) is no ASCII digit, no ',' and no '/' |
| Calendar.DaysInMonth | AresAPI.cs:69 | months have 28 to 31 days and 29 exactly for February in a leap year |
| TextAddress.Span | AresAPI.cs:103 | a greedy character-class run: every character in it is in the class, and the next one is not |
| TextAddress.SpanIs | AresAPI.cs:103 | a run that cannot be extended is the one the greedy reading finds |
| TextAddress.FindPath | AresAPI.cs:102-104 | every path the matcher reports is a way for the pattern to match and is the backtracking engine's preferred one |
| TextAddress.FindPathComplete | AresAPI.cs:102-104 | whenever the pattern matches along its preferred path, the matcher reports that path |
| TextAddress.AnyPathFound | AresAPI.cs:102-106 | whenever any way of matching the pattern exists, preferred or not, the matcher finds a match |
| TextAddress.MatchIffSomePath | AresAPI.cs:102-106 | the matcher returns groups exactly when the pattern matches the start of the text in some way |
| TextAddress.SpanCovers | AresAPI.cs:103 | a run of characters in a class lies within the greedy run from the same start |
| TextAddress.HouseEnd | AresAPI.cs:103 | on any match, the greedy house number followed by the optional '/' and digit ends where the match's orientation number ends |
| TextAddress.Match | AresAPI.cs:102-108 | the groups returned are the groups of a match of the pattern |
| TextAddress.MatchIffMatches | AresAPI.cs:102-108 | the matcher returns some groups exactly when the pattern matches with those groups |
| AresApi.ParseAresDate | AresAPI.cs:63-70 | the date is unset for fewer than three '-'-separated parts; a date read has the first three parts as year, month and day; three numeric parts that form a valid date are read as that date |
| AresApi.ParseAresDateRoundTrip | AresAPI.cs:65-69 | every valid date written as "year-month-day" without leading zeros is read back as that date |
| AresApi.DateFromDigitParts | AresAPI.cs:63-70 | three non-empty digit texts joined by '-' whose values form a valid date are read as that date |
| AresApi.ParseAresDatePaddedRoundTrip | AresAPI.cs:63-70 | every valid date written as "yyyy-MM-dd", with leading zeros, is read back as that date |
| AresApi.ParseAresDateExample | AresAPI.cs:63-70 | "2001-02-03" is read as 3 February 2001 |
| AresApi.ParseAresDateIgnoresRest | AresAPI.cs:65-68 | parts after the third are ignored |
| AresApi.ParseAresDateRejectsFebruary30 | AresAPI.cs:64-70 | a day that does not exist (2001-02-30) leaves the date unset |
| AresApi.Backfill | AresAPI.cs:111-117 | without a match nothing changes; a non-empty field is kept, with house and orientation numbers kept together; an empty one gets its trimmed group, the postal code without spaces; name, IČO, VAT fields and date never change |
| AresApi.BackfillIdempotent | AresAPI.cs:111-117 | reading the same address a second time changes nothing more |
| AresApi.FillFromGroups | AresAPI.cs:111-117 | the four conditional assignments leave the company's fields equal to `Backfill` of the old fields with the groups |
| AresApi.ParseTextAddress | AresAPI.cs:101-118 | the company's fields afterwards are `Backfill` of the old fields with the pattern's match, if any |
| AresApi.AddressTextRoundTrip | AresAPI.cs:101-118 | an address line "street house[/d] ddd dd, city" read into empty address fields gives back the street, house and orientation numbers, the five-digit postal code and the city |
| AresApi.DigitGroupsJoin | AresAPI.cs:116 | the postal code's two digit groups, their space removed and trimmed, are joined |
| AresApi.LongOrientationDoesNotMatch | AresAPI.cs:103 | a street line with an orientation number of two or more digits is not matched at all, whatever follows |
| AresApi.FirstQualifying | AresAPI.cs:140-148 | the position of the first entry with the asked IČO and a `p_dph`, every earlier one failing that test |
| AresApi.SelectTaxno | AresAPI.cs:139-151 | "" when no entry has the IČO and a `p_dph`; otherwise the first such entry's `p_dph` with every "dic=" removed |
| AresApi.GetTaxno | AresAPI.cs:120-152 | the scan with its early return yields `SelectTaxno` of the entries |
| AresApi.SelectTaxnoSkipsOtherCompanies | AresAPI.cs:140-147 | an entry of another company listed first is skipped and "dic=" is stripped |
| AresApi.StructuredFieldsCopies | AresAPI.cs:63-91 | each present element sets its field, `Cislo_do_adresy` overriding `Cislo_domovni`, the date only when it parses; absent elements leave fields unchanged |
| AresApi.CopyStructuredFields | AresAPI.cs:63-91 | the element copies leave each field as its element, or its old value when the element is absent |
| AresApi.BlankStructured | AresAPI.cs:63-91 | over a blank record each field is its element's text, or empty without one, the address number winning over the house number; the IČO and "CZ" are kept and the VAT number is empty |
| AresApi.RegisteredFields | AresAPI.cs:30-94 | the registered record has the IČO, "CZ", no VAT number yet, the name and date elements, and each non-empty street, city, postal-code or house element; without a match of the text address it is the structured fields alone |
| AresApi.RegisteredFromText | AresAPI.cs:92-94 | the fields the structured elements leave empty get the trimmed groups of the matching text address |
| AresApi.Assemble | AresAPI.cs:30-99 | an unreadable count fails; count 0 gives the "Nenalezeno" record; any count other than 0 and 1 exactly fails with "Multiple records found."; count 1 gives the record with IČO, "CZ", the name element, the VAT number searched by that name, and a non-empty street, city or zip element winning over the text address |
| AresApi.GetCompanyByIdno | AresAPI.cs:30-99 | the method succeeds exactly when `Assemble` does, with the same failure, and a fresh company whose fields are `Assemble`'s record |
| MfcrApi.StatusText | MfcrAPI.cs:30-32 | no status element reads as "NENALEZEN"; an element without the attribute fails; otherwise the attribute's value |
| MfcrApi.StatusOf | MfcrAPI.cs:36-40 | "ANO" exactly gives unreliable, "NE" exactly reliable, every other text not a payer |
| MfcrApi.GetTaxpayerStatus | MfcrAPI.cs:11-41 | an empty VAT number is not a payer; failure exactly when the element lacks the attribute; unreliable exactly for "ANO", reliable exactly for "NE"; no element is not a payer |
| MfcrApi.StatusDependsOnAnswer | MfcrAPI.cs:12-21 | the status depends only on the answer for this VAT number, and on no answer for an empty one |
| MfcrApi.StatusExamples | MfcrAPI.cs:36-39 | the comparison is case-sensitive ("ano" is not a payer), and "NENALEZEN" reads as not a payer |

## Left out

- HTTP and SOAP transport (`makeRequest`, the SOAP envelope and request helpers): network I/O. Their answers are parameters of the model.
- XML parsing, XPath queries and namespace managers. The answers are given as the values the code reads out of them. A missing `xmlns` attribute, which would throw, is not modelled.
- `Main`: console and log redirection, the argument-count check, the removal of spaces from the argument, and the exit codes. This is process plumbing.
- `writeToFile` and its ISO-8859-2 transcoding: file I/O and a code page of the runtime.
- `removeDiacritics`: it depends on the runtime's Unicode normalisation tables. The name search is the parameter `vatLookup` applied to the name, so whatever the name is turned into before the search is part of that parameter.
- The older copy of the registry client inside Program.cs (lines 192-328): a duplicate without the address-number and text-address handling, superseded by AresAPI.cs.
- Debug and test-file substitution (`#if DEBUG`, the test file parameters): they only choose where a document is read from.
- Console output ("Not found!", "Taxno not found.", the status log line).
- Companies.Company.IsValidIdno: the pattern `^\d{8}$` is modelled as eight ASCII digits. .NET's `\d` also accepts other Unicode decimal digits, which `int.Parse` then rejects with an exception, and `$` also accepts a trailing line feed. Neither case is modelled.
- Companies.Company.FormatIco: inherits the ASCII-only reading of `\d` from `IsValidIdno`.
- Text.LastIndexOf: `LastIndexOf(" ")` with a string argument is culture-sensitive in .NET. It is modelled as the ordinal search, which agrees for the space character on ordinary text.
- Text.ParseNat: `int.Parse` also accepts surrounding white space and a sign, and throws on overflow. Only texts of ASCII digits are read as numbers. Any other text is treated as the exception, which leaves the date unset.
- AresApi.ParseAresDate: inherits the `int.Parse` restriction of `Text.ParseNat`.
- Companies.NameLine1: .NET's `Length` and `Substring` count UTF-16 code units, while the model counts Unicode scalar values. For a name with characters outside the Basic Multilingual Plane the 35-character cut falls elsewhere, and .NET can split a surrogate pair, which the model cannot express.
- Companies.NameLine2: the same UTF-16 difference as `NameLine1` for the cut and for `TrimStart`.
- TextAddress.Match: `\p{L}` is the parameter `isLetter`. The agreement with the pattern is proved under the assumption that no letter is an ASCII digit or white space, which the Unicode letter categories satisfy.
- The record count is `int.Parse` of the element's text. A missing element and a non-number both throw, and both are the one `RecordCountUnreadable` failure.
- AresApi.Assemble: a record with count 0 is the "Nenalezeno" record. The reverse direction does not hold, because a company found with that name gives the same record.
