# Test-data generator, modelled in Dafny

This project models the `DataGenerator` class of `data_generator.py`. The class
builds fake Russian-language test data from fixed reference lists:

- full names, e-mail addresses, "+7" phone numbers, passwords;
- dates within a range of years, postal addresses, lorem-ipsum paragraphs;
- user and product records, and the dispatch between the two record kinds.

Every random draw of the original becomes an explicit argument: the index chosen
from a list, or the integer `random.randint` / `random.randrange` returned. Each
argument carries, as a precondition, the range its random call can produce.
Each contract therefore reads "for every admissible outcome of the draws, the
result has this shape". The cover lemmas state the converse: every value of
that shape is produced by some draws.

The project has four modules:

- `Wrappers` holds `Option` and `Result`.
- `Text` holds the Python string operations the generator uses, each with an
  inverse or an independent characterisation:
  - `str.lower` and `str.upper`, inverse to each other on the letters they map;
  - `str.capitalize`, undone by `str.lower` on text without capitals;
  - one-character `str.replace`, described character by character;
  - `sep.join`, with `str.split` as its inverse;
  - `str(n)` and zero-padded fields, with decimal parsing as their inverse;
  - `random.choices` with explicit draws, which every drawn element comes
    from and which can produce every sequence over the pool.
- `Calendar` holds the proleptic Gregorian calendar as Python's `datetime`
  computes it:
  - `toordinal`;
  - adding a number of days to 1 January;
  - the calendar-date format YYYY-MM-DD of ISO 8601:2004 section 4.1.2.2, with
    its parser.
- `DataGenerator` holds the reference lists, one function per field generator,
  the per-record builders, and the three loops of the original as methods with
  invariants. These are `generate_lorem_ipsum`, `generate_user_data` and
  `generate_product_data`.

The reference lists are never updated after `__init__`, so they are module
constants rather than fields of an object. For the same reason the generator
functions are functions, not methods of a class.

The model follows two behaviours of the code that a reader might not expect:

- `generate_date` draws with `random.randrange(days_between)`, which excludes
  its upper end. So 31 December of the end year is never produced.
- An end year before the start year makes that range empty, and the call fails.

## Model

| member | source | states |
|---|---|---|
| Text.CaseMapping | data_generator.py:37 | lower- and upper-casing are inverse bijections between the upper- and lower-case letters they cover, and leave every other character unchanged |
| Text.ReplaceChar | data_generator.py:37 | `str.replace` with one-character arguments keeps the length and replaces exactly the occurrences of the old character |
| Text.LowerCapitalize | data_generator.py:88 | on a text without upper-case letters, `capitalize` keeps the length and lower-casing undoes it |
| Text.SplitJoin | data_generator.py:88 | splitting a join at the same separator gives the parts back, when no part contains the separator |
| Text.Decimal | data_generator.py:71 | `str(n)` is a non-empty run of digits with no leading zero (unless n is 0) that parses back to n |
| Text.Padded | data_generator.py:103 | a zero-padded field has exactly the requested width, only digits, and parses back to n when n fits |
| Text.ChoicesFromPool | data_generator.py:86 | every element `random.choices` draws belongs to the pool |
| Text.ChoicesSnoc | data_generator.py:85-86 | drawing one more element appends that element to the drawn list, which is what each loop iteration does |
| Text.ChoicesCover | data_generator.py:39 | every sequence over the pool is the outcome of some draws of the same length |
| Text.InCharRange | data_generator.py:50 | a character belongs to `string.ascii_lowercase`, `ascii_uppercase` or `digits` exactly when its code point lies in that range |
| Calendar.YearLength | data_generator.py:58-59 | the days before year y + 1 are the days before y plus the length of y (365, or 366 in a leap year) |
| Calendar.YearsMonotone | data_generator.py:58-59 | each year adds at least 365 days to the ordinal count |
| Calendar.OrdinalInYear | data_generator.py:58-59 | a date's ordinal lies within its year's span, and strictly inside it unless the date is 31 December |
| Calendar.FromDayOfYear | data_generator.py:62 | the walk through the months yields a valid date of the same year whose day of the year is the requested one |
| Calendar.AfterNewYear | data_generator.py:62 | 1 January of y plus n days is a valid date, no earlier than year y, whose ordinal is exactly n days past 1 January |
| Calendar.FromDayOfYearReaches | data_generator.py:62 | every date of year y is reached by walking forward from the first day of any earlier or equal month |
| Calendar.AfterNewYearReaches | data_generator.py:62 | every date from 1 January of y on is y's 1 January plus its ordinal distance, so adding days inverts `toordinal` |
| Calendar.FormatIsoDate | data_generator.py:103 | `strftime("%Y-%m-%d")` gives ten characters, dashes at positions 4 and 7 and digits elsewhere, and parsing gives the date back |
| DataGenerator.NamesAvoidSpace | data_generator.py:15-17 | no first name or surname contains a space |
| DataGenerator.CitiesAvoidComma | data_generator.py:19 | no city contains a comma |
| DataGenerator.StreetsAvoidComma | data_generator.py:67 | no street name contains a comma |
| DataGenerator.LoremVocabulary | data_generator.py:75-82 | the lorem-ipsum vocabulary has 48 entries, each a non-empty word of lower-case ASCII letters |
| DataGenerator.FirstNamePool | data_generator.py:24-29 | a first name can be drawn exactly when it is in the male list and the gender is not "female", or in the female list and the gender is not "male" |
| DataGenerator.GenerateName | data_generator.py:22-32 | the name is the drawn first name from the gender's list (both lists for any other gender or none), a space, and the drawn surname; splitting at the space recovers both |
| DataGenerator.NameCover | data_generator.py:22-32 | every pairing of a first name from the gender's list with a listed surname can be generated |
| DataGenerator.RepeatedSurname | data_generator.py:17 | the surname listed twice makes two different draws give the same name |
| DataGenerator.HasName | data_generator.py:36 | Python's truth value of the name: present and not empty; `GenerateEmail` states what each branch yields |
| DataGenerator.Username | data_generator.py:37 | the user name has one character per name character: spaces become dots, "ё" becomes the Latin "e", everything else is lower-cased; it has no space, no "ё" and no upper-case letter |
| DataGenerator.GenerateEmail | data_generator.py:34-42 | the address is a user name, "@" and a listed domain; the user name is derived from a non-empty name, and otherwise is the 5 to 10 lower-case ASCII letters drawn |
| DataGenerator.RandomEmailCover | data_generator.py:39-42 | every 5 to 10 lower-case letters at any listed domain is the address some draws give for a missing name |
| DataGenerator.GeneratePhone | data_generator.py:44-46 | the phone is "+7" followed by exactly ten digits, which are the ten digits drawn |
| DataGenerator.PhoneCover | data_generator.py:44-46 | every "+7" followed by ten digits is generated by some draws |
| DataGenerator.PasswordAlphabetClasses | data_generator.py:50 | the password alphabet has 70 characters: exactly the ASCII letters, the decimal digits and "!@#$%^&*" |
| DataGenerator.GeneratePassword | data_generator.py:48-51 | the password is the characters drawn from the alphabet, in order; it has the requested length (none for a negative length) |
| DataGenerator.PasswordCover | data_generator.py:48-51 | every string of the requested length over the alphabet is the password of some draws |
| DataGenerator.DaysBetween | data_generator.py:55-59 | the number of days from 1 January of the start year to 31 December of the end year; `DaysBetweenSign` states when it is positive |
| DataGenerator.DaysBetweenSign | data_generator.py:55-60 | the range of day offsets is non-empty exactly when the start year is not after the end year |
| DataGenerator.GenerateDate | data_generator.py:53-62 | the call fails exactly when the end year precedes the start year; otherwise the date is valid, its year is in range, it is not 31 December of the end year, and it lies the drawn number of days after 1 January of the start year |
| DataGenerator.BeforeYearEnd | data_generator.py:56-62 | a date whose ordinal is below that of 31 December of the end year lies in or before the end year, and is not that 31 December |
| DataGenerator.BeforeYearEndOrdinal | data_generator.py:56-62 | a date up to 30 December of the end year has a smaller ordinal than 31 December of that year |
| DataGenerator.DateCover | data_generator.py:53-62 | every date from 1 January of the start year to 30 December of the end year is produced by some admissible offset |
| DataGenerator.GenerateAddress | data_generator.py:64-71 | the address reads back into exactly the drawn city, street, house number and apartment number |
| DataGenerator.AddressRoundTrip | data_generator.py:71 | "city, ул. street, д. house, кв. apartment" parses back into its four parts for any city and street without commas |
| DataGenerator.LoremText | data_generator.py:88 | joining the words with spaces, capitalising and adding "."; `LoremTextWords` states its shape and its inverse |
| DataGenerator.LoremTextWords | data_generator.py:88 | a text made of vocabulary words starts with a capital, has no other capital letter and ends in "."; lower-casing and splitting it gives back the words; an empty list gives "." |
| DataGenerator.GenerateLoremIpsum | data_generator.py:73-88 | the paragraph is the vocabulary words drawn, in order, joined by spaces, capitalised and ended with "."; it has exactly as many words as requested (none for a non-positive count) |
| DataGenerator.DateText | data_generator.py:103 | a date drawn between two four-digit years prints as a YYYY-MM-DD text of a date in that range, never the end year's 31 December |
| DataGenerator.MakeUser | data_generator.py:94-108 | one user built from one set of draws; `MakeUserIsRecord` states what every such user satisfies |
| DataGenerator.MakeUserIsRecord | data_generator.py:93-108 | every user built from admissible draws has a listed gender and a first name of that gender, an e-mail derived from the name at a listed domain, a "+7" phone, an id in 1000-9999, a birth date in 1970-2005, a registration date in 2020-2025, a parsable address, a listed company and a salary in 30000-150000 |
| DataGenerator.GenerateUserData | data_generator.py:90-111 | the list has max(count, 0) users, the i-th built from the i-th draws, each a well-formed record |
| DataGenerator.ProductName | data_generator.py:121 | the product name is "Товар " followed by the decimal numeral of the drawn number |
| DataGenerator.ProductOf | data_generator.py:119-127 | every product has an id in 100-9999, a name "Товар " plus a number in 1-1000, a listed category, a price in 100.00-50000.00, a stock count in 0-100, a rating in 1.0-5.0 and a 20-word lorem-ipsum description |
| DataGenerator.GenerateProductData | data_generator.py:113-130 | the list has max(count, 0) products, the i-th built from the i-th draws, each a well-formed record |
| DataGenerator.GenerateJsonData | data_generator.py:132-139 | "users" gives the users of the draws, "products" gives the products, and any other tag gives the empty list |

## Left out

- The interactive menu `main` (data_generator.py:141-259) is left out: console input, printing, and writing the records to a JSON file. It is I/O around the generator.
- `download_youtube_videos.py` is not part of this model.
- The probability distribution of the draws is left out. The model says which outcomes are possible, not how likely each is.
- DataGenerator.ProductOf: the price and rating come from `random.uniform` and `round` in the original. They are modelled as integers in hundredths and tenths within the rounded bounds, because floating-point sampling and rounding are not modelled.
- DataGenerator.Username: "one character per name character" and "no upper-case letter" hold only for names inside ASCII and U+0400 to U+045F. Outside that range `Text.Lower` leaves a character unchanged, while Python lower-cases "À" and turns "İ" into two characters. Every listed name lies inside the range.
- Text.Lower and Text.Upper: they cover only ASCII and the basic Cyrillic block (U+0400 to U+045F), one character to one character. Python's full Unicode case mapping is not modelled. Every name in the lists lies inside that range.
- Calendar.FormatIsoDate requires a year of at least 1000. The `%Y` padding of earlier years depends on the platform's C library and is not modelled. The generator only prints years from 1970 on.
- DataGenerator.GenerateDate requires both years within 1 to 9999. Outside that range `datetime` itself raises before any draw, and that error is not modelled.
- Default argument values (`gender=None`, `length=12`, `start_year=1990`, `end_year=2025`, `words_count=50`, `count=1`) are not modelled. Every argument is explicit.
- The user and product dictionaries are modelled as datatypes with one field per key. Key order and the JSON encoding are not modelled.
