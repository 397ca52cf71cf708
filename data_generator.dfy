/**
  The `DataGenerator` class of data_generator.py: fake user and product
  records built from fixed reference lists.

  Every random draw of the original is an explicit argument here: an index
  into the list being chosen from, or the integer `random.randint` returned,
  each with the range the draw can produce as a precondition.  So each
  contract reads "for every admissible outcome of the draws, the result has
  this shape", and the cover lemmas state the converse: every value of that
  shape is the outcome of some draws.

  The reference lists never change after construction, so they are module
  constants rather than fields of an object.
*/
module DataGenerator {
  import opened Wrappers
  import opened Text
  import opened Calendar

  // =======================================================================
  // Reference lists

  const FirstNamesMale: seq<string> :=
    ["Александр", "Максим", "Артем", "Дмитрий", "Никита", "Илья", "Андрей", "Роман", "Сергей", "Владимир"]
  const FirstNamesFemale: seq<string> :=
    ["Анна", "Мария", "Елена", "Ольга", "Екатерина", "Татьяна", "Наталья", "Ирина", "Светлана", "Юлия"]
  /** "Козлов" is listed twice (positions 3 and 8), so it is drawn twice as often as the others. */
  const LastNames: seq<string> :=
    ["Иванов", "Петров", "Сидоров", "Козлов", "Смирнов", "Попов", "Соколов", "Лебедев", "Козлов", "Новиков"]
  const Domains: seq<string> := ["gmail.com", "yandex.ru", "mail.ru", "yahoo.com", "outlook.com"]
  const Cities: seq<string> :=
    ["Москва", "Санкт-Петербург", "Новосибирск", "Екатеринбург", "Казань", "Нижний Новгород", "Челябинск", "Самара", "Омск", "Ростов-на-Дону"]
  const Companies: seq<string> :=
    ["ТехноСофт", "ИнноваЛаб", "ДигиталПро", "СмартСистемс", "ФьючерТек", "МегаДев", "КодЛаб", "ИТ-Решения", "ТехноВейв", "СофтВорк"]
  /** The street names `generate_address` chooses from. */
  const Streets: seq<string> := ["Ленина", "Пушкина", "Гагарина", "Советская", "Центральная"]
  /** The vocabulary of `generate_lorem_ipsum`, one constant per line of the original list. */
  const LoremWords: seq<string> := LoremLine1 + LoremLine2 + LoremLine3 + LoremLine4 + LoremLine5 + LoremLine6
  const LoremLine1: seq<string> := ["lorem", "ipsum", "dolor", "sit", "amet", "consectetur", "adipiscing", "elit"]
  const LoremLine2: seq<string> := ["sed", "do", "eiusmod", "tempor", "incididunt", "ut", "labore", "et", "dolore"]
  const LoremLine3: seq<string> := ["magna", "aliqua", "enim", "ad", "minim", "veniam", "quis", "nostrud"]
  const LoremLine4: seq<string> := ["exercitation", "ullamco", "laboris", "nisi", "aliquip", "ex", "ea", "commodo"]
  const LoremLine5: seq<string> := ["consequat", "duis", "aute", "irure", "in", "reprehenderit", "voluptate"]
  const LoremLine6: seq<string> := ["velit", "esse", "cillum", "fugiat", "nulla", "pariatur", "excepteur", "sint"]
  /** The product categories of `generate_product_data`. */
  const Categories: seq<string> := ["Электроника", "Одежда", "Книги", "Спорт", "Дом", "Красота"]
  /** The genders `generate_user_data` chooses from. */
  const Genders: seq<string> := ["male", "female"]

  /** `string.ascii_lowercase`, `string.ascii_uppercase`, `string.digits`. */
  const AsciiLowercase: string := CharRange('a', 26)
  const AsciiUppercase: string := CharRange('A', 26)
  const Digits: string := CharRange('0', 10)
  const Punctuation: string := "!@#$%^&*"
  /** `string.ascii_letters + string.digits + "!@#$%^&*"`. */
  const PasswordAlphabet: string := AsciiLowercase + AsciiUppercase + Digits + Punctuation

  const PhonePrefix: string := "+7"
  const StreetPrefix: string := "ул. "
  const HousePrefix: string := "д. "
  const FlatPrefix: string := "кв. "
  const ProductPrefix: string := "Товар "

  // -----------------------------------------------------------------------
  // Facts about the lists the proofs below rely on

  /** No string of the list contains c. */
  predicate Avoids(words: seq<string>, c: char)
  {
    forall i, j :: 0 <= i < |words| && 0 <= j < |words[i]| ==> words[i][j] != c
  }

  /** A non-empty word of lower-case ASCII letters. */
  predicate IsWord(w: string)
  {
    |w| > 0 && forall j :: 0 <= j < |w| ==> IsAsciiLower(w[j])
  }

  predicate IsVocabulary(words: seq<string>)
  {
    forall i :: 0 <= i < |words| ==> IsWord(words[i])
  }

  lemma NamesAvoidSpace()
    ensures Avoids(FirstNamesMale, ' ') && Avoids(FirstNamesFemale, ' ') && Avoids(LastNames, ' ')
    ensures Avoids(FirstNamesMale + FirstNamesFemale, ' ')
  {
  }

  lemma CitiesAvoidComma()
    ensures Avoids(Cities, ',')
  {
  }

  lemma StreetsAvoidComma()
    ensures Avoids(Streets, ',')
  {
  }

  lemma VocabularyConcat(a: seq<string>, b: seq<string>)
    requires IsVocabulary(a) && IsVocabulary(b)
    ensures IsVocabulary(a + b)
  {
  }

  lemma LoremLines1To2()
    ensures IsVocabulary(LoremLine1) && IsVocabulary(LoremLine2)
  {
  }

  lemma LoremLines3To4()
    ensures IsVocabulary(LoremLine3) && IsVocabulary(LoremLine4)
  {
  }

  lemma LoremLines5To6()
    ensures IsVocabulary(LoremLine5) && IsVocabulary(LoremLine6)
  {
  }

  /** The vocabulary holds 48 non-empty lower-case ASCII words. */
  lemma LoremVocabulary()
    ensures IsVocabulary(LoremWords) && |LoremWords| == 48
  {
    LoremLines1To2();
    LoremLines3To4();
    LoremLines5To6();
    VocabularyConcat(LoremLine1, LoremLine2);
    VocabularyConcat(LoremLine1 + LoremLine2, LoremLine3);
    VocabularyConcat(LoremLine1 + LoremLine2 + LoremLine3, LoremLine4);
    VocabularyConcat(LoremLine1 + LoremLine2 + LoremLine3 + LoremLine4, LoremLine5);
    VocabularyConcat(LoremLine1 + LoremLine2 + LoremLine3 + LoremLine4 + LoremLine5, LoremLine6);
  }

  /** `len(range(n))`: a count below zero yields nothing. */
  function Max0(n: int): nat
  {
    if n < 0 then 0 else n
  }

  // =======================================================================
  // generate_name

  /** The first names a gender draws from: any gender other than "male" or "female", or none, draws from both lists. */
  function FirstNamePool(gender: Option<string>): (pool: seq<string>)
    ensures forall n :: n in pool <==>
              (n in FirstNamesMale && gender != Some("female")) || (n in FirstNamesFemale && gender != Some("male"))
  {
    if gender == Some("male") then FirstNamesMale
    else if gender == Some("female") then FirstNamesFemale
    else FirstNamesMale + FirstNamesFemale
  }

  /** "First Last": splitting at the space gives back the first name drawn and the surname drawn. */
  function GenerateName(gender: Option<string>, first: nat, last: nat): (name: string)
    requires first < |FirstNamePool(gender)| && last < |LastNames|
    ensures Split(name, ' ') == [FirstNamePool(gender)[first], LastNames[last]]
  {
    var f, l := FirstNamePool(gender)[first], LastNames[last];
    NamesAvoidSpace();
    JoinPair(f, l, ' ');
    SplitJoin([f, l], ' ');
    f + " " + l
  }

  /** Any first name of the gender's pool and any surname can be drawn. */
  lemma NameCover(gender: Option<string>, f: string, l: string)
    requires f in FirstNamePool(gender) && l in LastNames
    ensures exists first: nat, last: nat :: first < |FirstNamePool(gender)| && last < |LastNames|
              && GenerateName(gender, first, last) == f + " " + l
  {
    var first, last := IndexOf(FirstNamePool(gender), f), IndexOf(LastNames, l);
    assert GenerateName(gender, first, last) == f + " " + l;
  }

  /** Because of the repeated surname, two different draws give the same name. */
  lemma RepeatedSurname(gender: Option<string>, first: nat)
    requires first < |FirstNamePool(gender)|
    ensures GenerateName(gender, first, 3) == GenerateName(gender, first, 8)
  {
  }

  // =======================================================================
  // generate_email

  /** Python's truth value of `name`: neither None nor the empty string. */
  predicate HasName(name: Option<string>)
  {
    name.Some? && name.value != ""
  }

  /** What one character of a name becomes in the user name. */
  function UsernameChar(c: char): char
  {
    if c == ' ' then '.' else if Lower(c) == 'ё' then 'e' else Lower(c)
  }

  predicate IsUsernameOf(u: string, name: string)
  {
    |u| == |name| && forall i :: 0 <= i < |u| ==> u[i] == UsernameChar(name[i])
  }

  /** `name.lower().replace(" ", ".").replace("ё", "e")`. */
  function Username(name: string): (u: string)
    ensures IsUsernameOf(u, name)
    ensures forall i :: 0 <= i < |u| ==> u[i] != ' ' && u[i] != 'ё' && !IsUpper(u[i])
  {
    var u := ReplaceChar(ReplaceChar(LowerStr(name), ' ', '.'), 'ё', 'e');
    assert forall i :: 0 <= i < |name| ==> !IsUpper(Lower(name[i])) && (Lower(name[i]) == ' ' <==> name[i] == ' ') by {
      forall i | 0 <= i < |name| ensures !IsUpper(Lower(name[i])) && (Lower(name[i]) == ' ' <==> name[i] == ' ') {
        CaseMapping(name[i]);
      }
    }
    u
  }

  /**
    The address: the user name derived from a non-empty name, or else 5 to 10
    random lower-case ASCII letters; then "@" and a domain of the list.
  */
  function GenerateEmail(name: Option<string>, letters: seq<nat>, domain: nat): (email: string)
    requires domain < |Domains|
    requires !HasName(name) ==> 5 <= |letters| <= 10 && AllDraws(letters, |AsciiLowercase|)
    ensures var k := |email| - |Domains[domain]| - 1;
      && 0 <= k && email[k] == '@' && email[k + 1..] == Domains[domain]
      && (HasName(name) ==> IsUsernameOf(email[..k], name.value))
      && (!HasName(name) ==> 5 <= k <= 10 && forall i :: 0 <= i < k ==> IsAsciiLower(email[i]))
      && (!HasName(name) ==> email[..k] == Choices(AsciiLowercase, letters))
  {
    var username := if HasName(name) then Username(name.value) else Choices(AsciiLowercase, letters);
    var email := username + "@" + Domains[domain];
    assert email[..|username|] == username;
    assert forall c :: c in AsciiLowercase ==> IsAsciiLower(c) by {
      forall c { InCharRange('a', 26, c); }
    }
    email
  }

  /** Every 5 to 10 lower-case letters, at any listed domain, is the address of some draws for a missing name. */
  lemma RandomEmailCover(u: string, domain: nat)
    requires 5 <= |u| <= 10 && forall i :: 0 <= i < |u| ==> IsAsciiLower(u[i])
    requires domain < |Domains|
    ensures exists letters :: 5 <= |letters| <= 10 && AllDraws(letters, |AsciiLowercase|)
              && GenerateEmail(None, letters, domain) == u + "@" + Domains[domain]
  {
    forall i | 0 <= i < |u| ensures u[i] in AsciiLowercase {
      InCharRange('a', 26, u[i]);
    }
    ChoicesCover(AsciiLowercase, u);
    var letters :| AllDraws(letters, |AsciiLowercase|) && |letters| == |u| && Choices(AsciiLowercase, letters) == u;
    assert GenerateEmail(None, letters, domain) == u + "@" + Domains[domain];
  }

  // =======================================================================
  // generate_phone

  /** "+7" followed by exactly ten decimal digits. */
  predicate IsPhone(s: string)
  {
    |s| == 12 && s[..2] == PhonePrefix && AllDigits(s[2..])
  }

  function GeneratePhone(digits: seq<nat>): (phone: string)
    requires |digits| == 10 && AllDraws(digits, |Digits|)
    ensures IsPhone(phone)
    ensures forall i :: 0 <= i < 10 ==> DigitValue(phone[i + 2]) == digits[i]
  {
    var tail := Choices(Digits, digits);
    var phone := PhonePrefix + tail;
    assert phone[2..] == tail;
    assert forall i :: 0 <= i < 10 ==> phone[i + 2] == tail[i] && tail[i] == ('0' as int + digits[i]) as char;
    phone
  }

  /** Every "+7" and ten digits is the phone number of some draws. */
  lemma PhoneCover(s: string)
    requires IsPhone(s)
    ensures exists digits :: |digits| == 10 && AllDraws(digits, |Digits|) && GeneratePhone(digits) == s
  {
    var tail := s[2..];
    forall i | 0 <= i < |tail| ensures tail[i] in Digits {
      InCharRange('0', 10, tail[i]);
    }
    ChoicesCover(Digits, tail);
    var digits :| AllDraws(digits, |Digits|) && |digits| == |tail| && Choices(Digits, digits) == tail;
    assert s == s[..2] + tail;
    assert GeneratePhone(digits) == s;
  }

  // =======================================================================
  // generate_password

  /** An ASCII letter, a decimal digit or one of "!@#$%^&*". */
  predicate IsPasswordChar(c: char)
  {
    IsAsciiLower(c) || IsAsciiUpper(c) || IsDigit(c) || c in Punctuation
  }

  lemma PasswordAlphabetClasses(c: char)
    ensures |PasswordAlphabet| == 70
    ensures c in PasswordAlphabet <==> IsPasswordChar(c)
  {
    InCharRange('a', 26, c);
    InCharRange('A', 26, c);
    InCharRange('0', 10, c);
  }

  /** `random.choices` with k = length: a length below zero gives the empty password. */
  function GeneratePassword(length: int, draws: seq<nat>): (password: string)
    requires |draws| == Max0(length) && AllDraws(draws, |PasswordAlphabet|)
    ensures |password| == Max0(length)
    ensures forall i :: 0 <= i < |password| ==> IsPasswordChar(password[i])
    ensures password == Choices(PasswordAlphabet, draws)
  {
    var password := Choices(PasswordAlphabet, draws);
    assert forall i :: 0 <= i < |password| ==> IsPasswordChar(password[i]) by {
      forall i | 0 <= i < |password| ensures IsPasswordChar(password[i]) {
        PasswordAlphabetClasses(password[i]);
      }
    }
    password
  }

  /** Every string of the requested length over the alphabet is the password of some draws. */
  lemma PasswordCover(length: int, s: string)
    requires |s| == Max0(length)
    requires forall i :: 0 <= i < |s| ==> IsPasswordChar(s[i])
    ensures exists draws :: |draws| == Max0(length) && AllDraws(draws, |PasswordAlphabet|)
              && GeneratePassword(length, draws) == s
  {
    forall i | 0 <= i < |s| ensures s[i] in PasswordAlphabet {
      PasswordAlphabetClasses(s[i]);
    }
    ChoicesCover(PasswordAlphabet, s);
    var draws :| AllDraws(draws, |PasswordAlphabet|) && |draws| == |s| && Choices(PasswordAlphabet, draws) == s;
    assert GeneratePassword(length, draws) == s;
  }

  // =======================================================================
  // generate_date

  /** The ValueError `random.randrange` raises for an empty range. */
  datatype DateError = EmptyRange

  /** `(datetime(endYear, 12, 31) - datetime(startYear, 1, 1)).days`. */
  function DaysBetween(startYear: int, endYear: int): int
  {
    Ordinal(Date(endYear, 12, 31)) - Ordinal(Date(startYear, 1, 1))
  }

  lemma DaysBetweenSign(startYear: int, endYear: int)
    ensures DaysBetween(startYear, endYear) > 0 <==> startYear <= endYear
  {
    MonthsFillYear(endYear);
    YearLength(endYear);
    if startYear <= endYear {
      YearsMonotone(startYear, endYear);
    } else {
      YearsMonotone(endYear + 1, startYear);
    }
  }

  /**
    `datetime(startYear, 1, 1) + timedelta(days=offset)` where `offset` is what
    `random.randrange(days_between)` drew.  The upper end is exclusive, so the
    result lies between 1 January of startYear and 30 December of endYear;
    when endYear precedes startYear the range is empty and the call fails.
  */
  function GenerateDate(startYear: int, endYear: int, offset: nat): (r: Result<Date, DateError>)
    requires MinYear <= startYear <= MaxYear && MinYear <= endYear <= MaxYear
    requires startYear <= endYear ==> offset < DaysBetween(startYear, endYear)
    ensures r.Err? <==> endYear < startYear
    ensures r.Ok? ==> ValidDate(r.value) && startYear <= r.value.year <= endYear
    ensures r.Ok? ==> r.value != Date(endYear, 12, 31)
    ensures r.Ok? ==> Ordinal(r.value) == Ordinal(Date(startYear, 1, 1)) + offset
  {
    DaysBetweenSign(startYear, endYear);
    var daysBetween := DaysBetween(startYear, endYear);
    if daysBetween <= 0 then
      Err(EmptyRange)
    else
      var d := AfterNewYear(startYear, offset);
      BeforeYearEnd(d, endYear);
      Ok(d)
  }

  /** A date whose ordinal is below that of 31 December of a year lies before it. */
  lemma BeforeYearEnd(d: Date, endYear: int)
    requires IsCalendarDate(d) && Ordinal(d) < Ordinal(Date(endYear, 12, 31))
    ensures d.year <= endYear && d != Date(endYear, 12, 31)
  {
    OrdinalInYear(d);
    OrdinalInYear(Date(endYear, 12, 31));
    if endYear < d.year {
      YearsMonotone(endYear + 1, d.year);
    }
  }

  /** Every date from 1 January of startYear to 30 December of endYear is drawn by some offset. */
  lemma DateCover(startYear: int, endYear: int, d: Date)
    requires MinYear <= startYear <= MaxYear && MinYear <= endYear <= MaxYear
    requires IsCalendarDate(d) && startYear <= d.year <= endYear && d != Date(endYear, 12, 31)
    ensures exists offset: nat :: offset < DaysBetween(startYear, endYear)
              && GenerateDate(startYear, endYear, offset) == Ok(d)
  {
    AfterNewYearReaches(startYear, d);
    var offset := Ordinal(d) - DaysBeforeYear(startYear) - 1;
    BeforeYearEndOrdinal(d, endYear);
    NewYearOrdinal(startYear);
    assert offset < DaysBetween(startYear, endYear);
    assert GenerateDate(startYear, endYear, offset) == Ok(d);
  }

  /** The converse of BeforeYearEnd: a date up to 30 December of a year has a smaller ordinal than its 31 December. */
  lemma BeforeYearEndOrdinal(d: Date, endYear: int)
    requires IsCalendarDate(d) && d.year <= endYear && d != Date(endYear, 12, 31)
    ensures Ordinal(d) < Ordinal(Date(endYear, 12, 31))
  {
    OrdinalInYear(d);
    MonthsFillYear(endYear);
    if d.year < endYear {
      YearsMonotone(d.year + 1, endYear);
    }
  }

  // =======================================================================
  // generate_address

  datatype Address = Address(city: string, street: string, house: int, apartment: int)

  predicate HasPrefix(s: string, p: string)
  {
    |p| <= |s| && s[..|p|] == p
  }

  /** Reads "city, ул. street, д. house, кв. apartment" back into its four parts. */
  function ParseAddress(s: string): Option<Address>
  {
    var parts := Split(s, ',');
    if |parts| == 4
       && HasPrefix(parts[1], " " + StreetPrefix)
       && HasPrefix(parts[2], " " + HousePrefix) && IsNumeral(parts[2][|HousePrefix| + 1..])
       && HasPrefix(parts[3], " " + FlatPrefix) && IsNumeral(parts[3][|FlatPrefix| + 1..])
    then
      Some(Address(parts[0], parts[1][|StreetPrefix| + 1..],
                   ParseDecimal(parts[2][|HousePrefix| + 1..]), ParseDecimal(parts[3][|FlatPrefix| + 1..])))
    else None
  }

  /** "city, ул. street, д. house, кв. apartment", which reads back into exactly the four values drawn. */
  function GenerateAddress(city: nat, street: nat, house: int, apartment: int): (address: string)
    requires city < |Cities| && street < |Streets| && 1 <= house <= 200 && 1 <= apartment <= 100
    ensures ParseAddress(address) == Some(Address(Cities[city], Streets[street], house, apartment))
  {
    var streetText := StreetPrefix + Streets[street];
    var address := Cities[city] + ", " + streetText + ", " + HousePrefix + Decimal(house) + ", " + FlatPrefix + Decimal(apartment);
    CitiesAvoidComma();
    StreetsAvoidComma();
    assert ',' !in Cities[city] && ',' !in Streets[street];
    AddressRoundTrip(Cities[city], Streets[street], house, apartment);
    address
  }

  lemma AddressRoundTrip(city: string, street: string, house: nat, apartment: nat)
    requires ',' !in city && ',' !in street
    ensures var address := city + ", " + (StreetPrefix + street) + ", " + HousePrefix + Decimal(house) + ", " + FlatPrefix + Decimal(apartment);
      ParseAddress(address) == Some(Address(city, street, house, apartment))
  {
    var h, a := Decimal(house), Decimal(apartment);
    var p1, p2, p3 := " " + StreetPrefix + street, " " + HousePrefix + h, " " + FlatPrefix + a;
    var address := city + ", " + (StreetPrefix + street) + ", " + HousePrefix + h + ", " + FlatPrefix + a;
    assert ',' !in h && ',' !in a;
    assert ',' !in p1 && ',' !in p2 && ',' !in p3;
    assert address == city + [','] + p1 + [','] + p2 + [','] + p3;
    SplitFour(city, p1, p2, p3, ',');
    PrefixedField(StreetPrefix, street);
    PrefixedField(HousePrefix, h);
    PrefixedField(FlatPrefix, a);
  }

  /** A field written as a space, a prefix and a value starts with both and gives the value back. */
  lemma PrefixedField(prefix: string, value: string)
    ensures HasPrefix(" " + prefix + value, " " + prefix)
    ensures (" " + prefix + value)[|prefix| + 1..] == value
  {
  }

  /** Four separator-free fields joined by the separator split back into the four. */
  lemma SplitFour(a: string, b: string, c: string, d: string, sep: char)
    requires sep !in a && sep !in b && sep !in c && sep !in d
    ensures Split(a + [sep] + b + [sep] + c + [sep] + d, sep) == [a, b, c, d]
  {
    JoinFour(a, b, c, d, sep);
    SplitJoin([a, b, c, d], sep);
  }

  lemma JoinFour(a: string, b: string, c: string, d: string, sep: char)
    ensures Join([a, b, c, d], sep) == a + [sep] + b + [sep] + c + [sep] + d
  {
    JoinPair(c, d, sep);
    assert [b, c, d][1..] == [c, d];
    assert [a, b, c, d][1..] == [b, c, d];
  }

  // =======================================================================
  // generate_lorem_ipsum

  /** `' '.join(words).capitalize() + '.'`. */
  function LoremText(words: seq<string>): string
  {
    Capitalize(Join(words, ' ')) + "."
  }

  /** k vocabulary words, first letter upper-cased, ending in "."; exactly "." when k is 0. */
  predicate IsLoremText(text: string, k: nat)
  {
    if k == 0 then text == "."
    else
      && |text| >= 2 && IsAsciiUpper(text[0]) && text[|text| - 1] == '.'
      && (forall i :: 1 <= i < |text| ==> !IsUpper(text[i]))
      && var words := Split(LowerStr(text[..|text| - 1]), ' ');
         |words| == k && forall i :: 0 <= i < k ==> words[i] in LoremWords
  }

  lemma {:induction false} JoinOfWords(words: seq<string>)
    requires IsVocabulary(words)
    ensures forall i :: 0 <= i < |Join(words, ' ')| ==> Join(words, ' ')[i] == ' ' || IsAsciiLower(Join(words, ' ')[i])
    ensures words != [] ==> |Join(words, ' ')| > 0 && IsAsciiLower(Join(words, ' ')[0])
    decreases |words|
  {
    if |words| > 1 {
      JoinOfWords(words[1..]);
      var rest := Join(words[1..], ' ');
      assert Join(words, ' ') == words[0] + [' '] + rest;
    }
  }

  /** A text assembled from vocabulary words has the lorem-ipsum shape, and lower-casing and splitting it gives the words back. */
  lemma {:induction false} LoremTextWords(words: seq<string>)
    requires forall i :: 0 <= i < |words| ==> words[i] in LoremWords
    ensures IsLoremText(LoremText(words), |words|)
    ensures words != [] ==> Split(LowerStr(LoremText(words)[..|LoremText(words)| - 1]), ' ') == words
  {
    LoremVocabulary();
    assert IsVocabulary(words);
    var joined := Join(words, ' ');
    var text := LoremText(words);
    if words != [] {
      JoinOfWords(words);
      forall i | 0 <= i < |joined| ensures !IsUpper(joined[i]) { }
      LowerCapitalize(joined);
      assert text[..|text| - 1] == Capitalize(joined);
      forall i | 1 <= i < |text| ensures !IsUpper(text[i]) {
        if i < |joined| {
          assert text[i] == Lower(joined[i]);
          CaseMapping(joined[i]);
        }
      }
      SplitJoin(words, ' ');
    }
  }

  /** Appends `words_count` drawn words in a loop, then joins, capitalises and ends with a period. */
  method GenerateLoremIpsum(wordsCount: int, draws: seq<nat>) returns (text: string)
    requires |draws| == Max0(wordsCount) && AllDraws(draws, |LoremWords|)
    ensures text == LoremText(Choices(LoremWords, draws))
    ensures IsLoremText(text, Max0(wordsCount))
    ensures wordsCount > 0 ==> Split(LowerStr(text[..|text| - 1]), ' ') == Choices(LoremWords, draws)
  {
    var words: seq<string> := [];
    var i := 0;
    while i < wordsCount
      invariant 0 <= i <= Max0(wordsCount)
      invariant words == Choices(LoremWords, draws[..i])
    {
      ChoicesSnoc(LoremWords, draws, i);
      words := words + [LoremWords[draws[i]]];
      i := i + 1;
    }
    assert draws[..i] == draws;
    text := LoremText(words);
    ChoicesFromPool(LoremWords, draws);
    LoremTextWords(words);
  }

  // =======================================================================
  // generate_user_data

  /** One user dictionary; its ten keys are the ten fields. */
  datatype User = User(
    id: int,
    name: string,
    email: string,
    phone: string,
    gender: string,
    birthDate: string,
    address: string,
    company: string,
    salary: int,
    registrationDate: string)

  /** The outcomes of the random draws that make up one user, in the order the original makes them. */
  datatype UserDraw = UserDraw(
    gender: nat,
    first: nat,
    last: nat,
    id: int,
    domain: nat,
    phone: seq<nat>,
    birthOffset: nat,
    city: nat,
    street: nat,
    house: int,
    apartment: int,
    company: nat,
    salary: int,
    registrationOffset: nat)

  /** The year ranges of the birth and registration dates. */
  const BirthFirstYear: int := 1970
  const BirthLastYear: int := 2005
  const RegistrationFirstYear: int := 2020
  const RegistrationLastYear: int := 2025

  /** Every draw within the range its random call can produce. */
  predicate IsUserDraw(d: UserDraw)
  {
    && d.gender < |Genders|
    && d.first < |FirstNamePool(Some(Genders[d.gender]))| && d.last < |LastNames|
    && 1000 <= d.id <= 9999
    && d.domain < |Domains|
    && |d.phone| == 10 && AllDraws(d.phone, |Digits|)
    && d.birthOffset < DaysBetween(BirthFirstYear, BirthLastYear)
    && d.city < |Cities| && d.street < |Streets| && 1 <= d.house <= 200 && 1 <= d.apartment <= 100
    && d.company < |Companies|
    && 30000 <= d.salary <= 150000
    && d.registrationOffset < DaysBetween(RegistrationFirstYear, RegistrationLastYear)
  }

  /** A YYYY-MM-DD text of a date from 1 January of `first` to 30 December of `last`. */
  predicate IsDateWithin(s: string, first: int, last: int)
  {
    var d := ParseIsoDate(s);
    d.Some? && ValidDate(d.value) && first <= d.value.year <= last && d.value != Date(last, 12, 31)
  }

  predicate IsAddress(s: string)
  {
    var a := ParseAddress(s);
    && a.Some? && a.value.city in Cities && a.value.street in Streets
    && 1 <= a.value.house <= 200 && 1 <= a.value.apartment <= 100
  }

  /** What every generated user satisfies. */
  predicate IsUserRecord(u: User)
  {
    IsUserIdentity(u) && IsUserContacts(u) && IsUserHistory(u)
  }

  /** A listed gender, a first name of that gender's list and a listed surname, a four-digit id. */
  predicate IsUserIdentity(u: User)
  {
    && u.gender in Genders
    && (var parts := Split(u.name, ' ');
        |parts| == 2 && parts[0] in FirstNamePool(Some(u.gender)) && parts[1] in LastNames)
    && 1000 <= u.id <= 9999
  }

  /** The e-mail derived from the name at a listed domain, a "+7" phone, a parsable address. */
  predicate IsUserContacts(u: User)
  {
    && (exists k :: 0 <= k < |Domains| && u.email == Username(u.name) + "@" + Domains[k])
    && IsPhone(u.phone)
    && IsAddress(u.address)
  }

  /** Birth and registration dates within their years, a listed company, a salary within range. */
  predicate IsUserHistory(u: User)
  {
    && IsDateWithin(u.birthDate, BirthFirstYear, BirthLastYear)
    && u.company in Companies
    && 30000 <= u.salary <= 150000
    && IsDateWithin(u.registrationDate, RegistrationFirstYear, RegistrationLastYear)
  }

  /** A date drawn between two years that always have four digits, printed as YYYY-MM-DD. */
  function DateText(startYear: int, endYear: int, offset: nat): (s: string)
    requires 1000 <= startYear <= endYear <= MaxYear
    requires offset < DaysBetween(startYear, endYear)
    ensures IsDateWithin(s, startYear, endYear)
  {
    FormatIsoDate(GenerateDate(startYear, endYear, offset).value)
  }

  /** The body of the loop of `generate_user_data`: one user from one set of draws. */
  function MakeUser(d: UserDraw): User
    requires IsUserDraw(d)
  {
    var gender := Genders[d.gender];
    var name := GenerateName(Some(gender), d.first, d.last);
    var email := GenerateEmail(Some(name), [], d.domain);
    var u := User(
      d.id,
      name,
      email,
      GeneratePhone(d.phone),
      gender,
      DateText(BirthFirstYear, BirthLastYear, d.birthOffset),
      GenerateAddress(d.city, d.street, d.house, d.apartment),
      Companies[d.company],
      d.salary,
      DateText(RegistrationFirstYear, RegistrationLastYear, d.registrationOffset));
    u
  }

  /** Every user the draws can produce is a well-formed record. */
  lemma MakeUserIsRecord(d: UserDraw)
    requires IsUserDraw(d)
    ensures IsUserRecord(MakeUser(d))
  {
    MakeUserIdentity(d);
    MakeUserContacts(d);
    MakeUserHistory(d);
  }

  lemma MakeUserIdentity(d: UserDraw)
    requires IsUserDraw(d)
    ensures IsUserIdentity(MakeUser(d))
  {
  }

  lemma MakeUserContacts(d: UserDraw)
    requires IsUserDraw(d)
    ensures IsUserContacts(MakeUser(d))
  {
    var u := MakeUser(d);
    assert u.email == Username(u.name) + "@" + Domains[d.domain];
  }

  lemma MakeUserHistory(d: UserDraw)
    requires IsUserDraw(d)
    ensures IsUserHistory(MakeUser(d))
  {
  }

  /** `count` users (none when count is not positive), each built from its own draws. */
  method GenerateUserData(count: int, draws: seq<UserDraw>) returns (users: seq<User>)
    requires |draws| == Max0(count)
    requires forall i :: 0 <= i < |draws| ==> IsUserDraw(draws[i])
    ensures |users| == Max0(count)
    ensures forall i :: 0 <= i < |users| ==> users[i] == MakeUser(draws[i])
    ensures forall i :: 0 <= i < |users| ==> IsUserRecord(users[i])
  {
    users := [];
    var i := 0;
    while i < count
      invariant 0 <= i <= Max0(count)
      invariant |users| == i
      invariant forall j :: 0 <= j < i ==> users[j] == MakeUser(draws[j])
    {
      var user := MakeUser(draws[i]);
      forall j | 0 <= j < i + 1 ensures (users + [user])[j] == MakeUser(draws[j]) {
        if j < i {
          assert (users + [user])[j] == users[j];
        }
      }
      users := users + [user];
      i := i + 1;
    }
    forall k | 0 <= k < |users| ensures IsUserRecord(users[k]) {
      MakeUserIsRecord(draws[k]);
    }
  }

  // =======================================================================
  // generate_product_data

  /**
    One product dictionary.  The price and the rating are carried as the
    decimal values the original rounds them to: hundredths of a rouble and
    tenths of a point.
  */
  datatype Product = Product(
    id: int,
    name: string,
    category: string,
    priceHundredths: int,
    inStock: int,
    ratingTenths: int,
    description: string)

  datatype ProductDraw = ProductDraw(
    id: int,
    number: int,
    category: nat,
    priceHundredths: int,
    inStock: int,
    ratingTenths: int,
    words: seq<nat>)

  predicate IsProductDraw(d: ProductDraw)
  {
    && 100 <= d.id <= 9999
    && 1 <= d.number <= 1000
    && d.category < |Categories|
    && 10000 <= d.priceHundredths <= 5000000
    && 0 <= d.inStock <= 100
    && 10 <= d.ratingTenths <= 50
    && |d.words| == 20 && AllDraws(d.words, |LoremWords|)
  }

  /** What every generated product satisfies. */
  predicate IsProductRecord(p: Product)
  {
    && 100 <= p.id <= 9999
    && HasPrefix(p.name, ProductPrefix) && IsNumeral(p.name[|ProductPrefix|..])
    && 1 <= ParseDecimal(p.name[|ProductPrefix|..]) <= 1000
    && p.category in Categories
    && 10000 <= p.priceHundredths <= 5000000
    && 0 <= p.inStock <= 100
    && 10 <= p.ratingTenths <= 50
    && IsLoremText(p.description, 20)
  }

  /** `f"Товар {number}"`. */
  function ProductName(number: nat): (name: string)
    ensures HasPrefix(name, ProductPrefix) && IsNumeral(name[|ProductPrefix|..])
    ensures ParseDecimal(name[|ProductPrefix|..]) == number
  {
    var name := ProductPrefix + Decimal(number);
    assert name[|ProductPrefix|..] == Decimal(number);
    name
  }

  /** The product one set of draws gives. */
  function ProductOf(d: ProductDraw): (p: Product)
    requires IsProductDraw(d)
    ensures IsProductRecord(p)
  {
    ChoicesFromPool(LoremWords, d.words);
    LoremTextWords(Choices(LoremWords, d.words));
    Product(d.id, ProductName(d.number), Categories[d.category], d.priceHundredths, d.inStock,
            d.ratingTenths, LoremText(Choices(LoremWords, d.words)))
  }

  /** `count` products (none when count is not positive), each with a 20-word description. */
  method GenerateProductData(count: int, draws: seq<ProductDraw>) returns (products: seq<Product>)
    requires |draws| == Max0(count)
    requires forall i :: 0 <= i < |draws| ==> IsProductDraw(draws[i])
    ensures |products| == Max0(count)
    ensures forall i :: 0 <= i < |products| ==> products[i] == ProductOf(draws[i])
    ensures forall i :: 0 <= i < |products| ==> IsProductRecord(products[i])
  {
    products := [];
    var i := 0;
    while i < count
      invariant 0 <= i <= Max0(count)
      invariant |products| == i
      invariant forall j :: 0 <= j < i ==> products[j] == ProductOf(draws[j])
    {
      var d := draws[i];
      var description := GenerateLoremIpsum(20, d.words);
      var product := Product(d.id, ProductName(d.number), Categories[d.category], d.priceHundredths,
                             d.inStock, d.ratingTenths, description);
      assert product == ProductOf(d);
      forall j | 0 <= j < i + 1 ensures (products + [product])[j] == ProductOf(draws[j]) {
        if j < i {
          assert (products + [product])[j] == products[j];
        }
      }
      products := products + [product];
      i := i + 1;
    }
    forall k | 0 <= k < |products| ensures IsProductRecord(products[k]) {
      var d := draws[k];
      assert products[k] == ProductOf(d);
    }
  }

  // =======================================================================
  // generate_json_data

  /** An element of the list `generate_json_data` returns. */
  datatype Record = UserRecord(user: User) | ProductRecord(product: Product)

  /** Users for "users", products for "products", and an empty list for any other tag. */
  method GenerateJsonData(dataType: string, count: int, userDraws: seq<UserDraw>, productDraws: seq<ProductDraw>)
    returns (records: seq<Record>)
    requires dataType == "users" ==>
      |userDraws| == Max0(count) && forall i :: 0 <= i < |userDraws| ==> IsUserDraw(userDraws[i])
    requires dataType == "products" ==>
      |productDraws| == Max0(count) && forall i :: 0 <= i < |productDraws| ==> IsProductDraw(productDraws[i])
    ensures dataType == "users" ==>
      |records| == Max0(count) && forall i :: 0 <= i < |records| ==> records[i] == UserRecord(MakeUser(userDraws[i]))
    ensures dataType == "products" ==>
      |records| == Max0(count) && forall i :: 0 <= i < |records| ==> records[i] == ProductRecord(ProductOf(productDraws[i]))
    ensures dataType != "users" && dataType != "products" ==> records == []
  {
    if dataType == "users" {
      var users := GenerateUserData(count, userDraws);
      records := seq(|users|, i requires 0 <= i < |users| => UserRecord(users[i]));
    } else if dataType == "products" {
      var products := GenerateProductData(count, productDraws);
      records := seq(|products|, i requires 0 <= i < |products| => ProductRecord(products[i]));
    } else {
      records := [];
    }
  }
}
