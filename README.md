# Jadira method-descriptor helper and column mappers, in Dafny

This project models three pieces of Jadira. The model is written as Dafny
functions, methods and classes, and the properties the code promises are
proved about them.

- **`JavassistMethodInfoHelper`** is from the class-path scanner. A compiled
  method has a descriptor such as `(Ljava/lang/String;I)V`, access flags, and
  an optional `LocalVariableTable`. From these the helper derives:
  - the parameter type tokens;
  - the parameter names;
  - the parameter classes.
- **`BigDecimalColumnFastMoneyMapper`** stores a Moneta `FastMoney` as a
  `BigDecimal` column, in one configured currency. It reads amounts from text
  of the form `"<currency code> <long>"`.
- **`PersistentOffsetTimeAsTimestamp.setParameterValues`** sets the two zones
  of the column mapper from the `databaseZone` and `javaZone` properties.
  The value `jvm` selects the JVM's own zone.

Each module and what it holds:

- `results.dfy`: `Option`, `Result` and `Outcome`. They stand for Java's
  null returns and thrown exceptions.
- `java_lang.dfy`: the exceptions (those of `java.lang`, Jadira's
  `ClasspathAccessException` and `javax.money.UnknownCurrencyException`),
  plus `indexOf`, `lastIndexOf`, `substring` and `replace` from
  `java.lang.String`.
- `java_split.dfy`: `String.split` for a single-character pattern with limit
  0, where trailing empty strings are removed. It also proves the round trips
  between splitting and joining.
- `java_numbers.dfy`: the decimal text `"" + i` of an integer, and
  `Long.parseLong`. It proves that parsing reads back printing.
- `descriptors.dfy`: the field and method descriptor grammar of section 4.3
  of the Java Virtual Machine Specification. This is a reference that the
  helper is compared against.
- `javassist_method_info_helper.dfy`: the helper itself.
- `descriptor_conformance.dfy`: how the helper behaves on descriptors built
  by that grammar. These lemmas include the places where the helper departs
  from the grammar, among them a `)` in the class name of the return type,
  which the grammar allows.
- `moneta_column_mapper.dfy`: the `FastMoney` column mapper, as a class with
  its `currencyUnit` field.
- `offset_time_type.dfy`: the column mapper's zone fields, as a class. It
  also holds the user type that configures them.

The helper's shortcuts are kept as the code has them, and lemmas make them
explicit:

- Tokens are cut only at `;`, and the `;` does not remain in the token. So
  `(II)V` gives the single token `II`, and `(Ljava/lang/String;)V` gives
  `Ljava/lang/String`.
- A synchronized method moves the name lookup one more entry down the table.
  Section 2.6.1 of the Java Virtual Machine Specification does not reserve
  such a slot.
- `[` decodes to `java.util.Arrays`.

Some behaviour of the code is easy to miss:

- `decodeFieldType` of an empty token throws `StringIndexOutOfBoundsException`
  from `charAt(0)`. The loop in `getMethodParamClasses` never passes it an
  empty token.
- `getMethodParamTypeNames` throws `StringIndexOutOfBoundsException` in two
  cases: the descriptor has no `)`, or its last `)` comes before its first
  `(`.
- The tokens do not keep their closing `;`.
- `variableName(k)` reads the name of the `k`-th entry of the
  `LocalVariableTable`, in table order. An index past the end aborts the call
  with `ArrayIndexOutOfBoundsException`.

Foreign calls become parameters of the model:

- `Class.forName` becomes a `Resolver`.
- `Monetary.getCurrency` becomes a `CurrencyRegistry`.
- `ZoneOffset.of` becomes a `ZoneOffsetParser`.

Each of these returns `None` where the library throws.

## Model

| member | source | states |
|---|---|---|
| JavaLang.Substring | scanner/src/main/java/org/jadira/scanner/core/helper/JavassistMethodInfoHelper.java:36 | `substring(begin, end)` succeeds exactly when `0 <= begin <= end <= length`; otherwise it throws `StringIndexOutOfBoundsException`; the result holds the characters `begin` to `end` |
| JavaLang.IndexOf | usertype.extended/src/main/java/org/jadira/usertype/moneyandcurrency/moneta/columnmapper/BigDecimalColumnFastMoneyMapper.java:50 | the result is -1 exactly when the character is absent; otherwise the position holds the character and no earlier position does |
| JavaLang.LastIndexOf | scanner/src/main/java/org/jadira/scanner/core/helper/JavassistMethodInfoHelper.java:36 | the result is -1 exactly when the character is absent; otherwise the position holds the character and no later position does |
| JavaLang.Replace | scanner/src/main/java/org/jadira/scanner/core/helper/JavassistMethodInfoHelper.java:104 | `replace('/', '.')` keeps the length, maps every `/` to `.`, leaves every other character, and leaves no `/` behind |
| JavaSplit.Split | scanner/src/main/java/org/jadira/scanner/core/helper/JavassistMethodInfoHelper.java:42 | `split(";")`: no token contains the separator; the tokens are the pieces between separators with trailing empty pieces removed, and only empty pieces are removed; a non-empty text never ends in an empty token |
| JavaSplit.SplitJoin | scanner/src/main/java/org/jadira/scanner/core/helper/JavassistMethodInfoHelper.java:42 | joining the tokens with the separator and re-appending the dropped trailing separators gives back the text |
| JavaSplit.SplitOfTerminated | scanner/src/main/java/org/jadira/scanner/core/helper/JavassistMethodInfoHelper.java:42 | splitting separator-free tokens, each followed by the separator, gives exactly those tokens back, provided the last is non-empty |
| JavaSplit.SplitOfTrailingSeparator | scanner/src/main/java/org/jadira/scanner/core/helper/JavassistMethodInfoHelper.java:42 | a separator at the end adds no token to a text that already holds one; a text holding none becomes one token, or none when it is empty |
| JavaSplit.SplitOfUnterminated | scanner/src/main/java/org/jadira/scanner/core/helper/JavassistMethodInfoHelper.java:42 | a text that holds the separator but does not end with it keeps every piece, so no empty token is dropped |
| JavaSplit.PiecesOfJoin | scanner/src/main/java/org/jadira/scanner/core/helper/JavassistMethodInfoHelper.java:42 | cutting a join of a non-empty list of separator-free parts at every separator gives back the parts |
| JavaNumbers.DecimalString | scanner/src/main/java/org/jadira/scanner/core/helper/JavassistMethodInfoHelper.java:71 | `"" + i` for `i >= 0` is non-empty, all digits, and has no leading zero |
| JavaNumbers.DigitsValueOfDecimal | scanner/src/main/java/org/jadira/scanner/core/helper/JavassistMethodInfoHelper.java:71 | the decimal text of `i` denotes `i` |
| JavaNumbers.DecimalStringInjective | scanner/src/main/java/org/jadira/scanner/core/helper/JavassistMethodInfoHelper.java:71 | placeholder names of distinct positions are distinct |
| JavaNumbers.ParseLong | usertype.extended/src/main/java/org/jadira/usertype/moneyandcurrency/moneta/columnmapper/BigDecimalColumnFastMoneyMapper.java:55 | `Long.parseLong` yields a value in the `long` range or `NumberFormatException` for that input; success needs a sign or digit first, and a negative value needs `-` |
| JavaNumbers.ParseLongOfToString | usertype.extended/src/main/java/org/jadira/usertype/moneyandcurrency/moneta/columnmapper/BigDecimalColumnFastMoneyMapper.java:55 | `Long.parseLong` reads back the decimal text of every `long` |
| JavassistMethodInfoHelper.ParamsText | scanner/src/main/java/org/jadira/scanner/core/helper/JavassistMethodInfoHelper.java:34-36 | the parameter text is what lies between the first `(` and the last `)`; it throws `StringIndexOutOfBoundsException` exactly when there is no `)` or the last `)` comes before the first `(`; without a `(` the text starts at position 0 |
| JavassistMethodInfoHelper.GetMethodParamTypeNames | scanner/src/main/java/org/jadira/scanner/core/helper/JavassistMethodInfoHelper.java:33-44 | throws exactly when the parameter text cannot be cut out; an empty parameter text gives no tokens; no token contains `;` |
| JavassistMethodInfoHelper.TokensRebuildParamsText | scanner/src/main/java/org/jadira/scanner/core/helper/JavassistMethodInfoHelper.java:36-43 | whenever the tokens are computed, joining them with `;` and re-appending the trailing `;` characters gives back the parameter text, so the tokens are exactly the text's `;`-separated parts |
| JavassistMethodInfoHelper.LocalVariableTable | scanner/src/main/java/org/jadira/scanner/core/helper/JavassistMethodInfoHelper.java:50-56 | a table is consulted exactly when the method has a Code attribute that carries a `LocalVariableTable` |
| JavassistMethodInfoHelper.SlotOffset | scanner/src/main/java/org/jadira/scanner/core/helper/JavassistMethodInfoHelper.java:59-66 | the offset is at most 2; it is 0 exactly for static, non-synchronized methods, and 2 exactly for non-static, synchronized ones |
| JavassistMethodInfoHelper.LookUpParamNames | scanner/src/main/java/org/jadira/scanner/core/helper/JavassistMethodInfoHelper.java:68-76 | the loop of `getMethodParamNames`: `n` names, entry `i + j` of the table when there is one, else the decimal text of `i`; it throws `ArrayIndexOutOfBoundsException` exactly when `n > 0` and entry `n - 1 + j` lies past the table |
| JavassistMethodInfoHelper.GetMethodParamNames | scanner/src/main/java/org/jadira/scanner/core/helper/JavassistMethodInfoHelper.java:46-77 | one name per type token; without a table name `i` is the decimal text of `i`; with one it is entry `i + offset`; it throws `ArrayIndexOutOfBoundsException` exactly when a needed entry lies past the table; type-token errors propagate |
| JavassistMethodInfoHelper.BinaryName | scanner/src/main/java/org/jadira/scanner/core/helper/JavassistMethodInfoHelper.java:104 | the name given to `Class.forName` has the internal name's length and no `/` |
| JavassistMethodInfoHelper.DecodeFieldType | scanner/src/main/java/org/jadira/scanner/core/helper/JavassistMethodInfoHelper.java:96-134 | throws `StringIndexOutOfBoundsException` exactly on the empty token; any other failure is a `ClassNotFoundException` for an `L` token, naming the rest of the token with `/` replaced by `.` |
| JavassistMethodInfoHelper.DecodeParamClasses | scanner/src/main/java/org/jadira/scanner/core/helper/JavassistMethodInfoHelper.java:82-93 | the loop of `getMethodParamClasses`: succeeds exactly when every non-empty token decodes; entry `k` is null for an empty token and the decoded class otherwise; on failure the first undecodable token names the exception |
| JavassistMethodInfoHelper.GetMethodParamClasses | scanner/src/main/java/org/jadira/scanner/core/helper/JavassistMethodInfoHelper.java:79-94 | succeeds exactly when every non-empty token decodes; entry `k` is null for an empty token and the decoded class otherwise; on failure the first undecodable token's binary name is the message's suffix and the cause; type-token errors propagate |
| DescriptorConformance.DecodeBaseTag | scanner/src/main/java/org/jadira/scanner/core/helper/JavassistMethodInfoHelper.java:105-128 | each base-type tag decodes to its boxed class, whatever follows it |
| DescriptorConformance.DecodeArrayTag | scanner/src/main/java/org/jadira/scanner/core/helper/JavassistMethodInfoHelper.java:129-131 | every token starting with `[` decodes to `java.util.Arrays`, not to an array class |
| DescriptorConformance.DecodeObjectTag | scanner/src/main/java/org/jadira/scanner/core/helper/JavassistMethodInfoHelper.java:102-104 | an `L` token decodes to whatever `Class.forName` finds for the rest with `/` replaced by `.`, and fails with `ClassNotFoundException` for that name otherwise |
| DescriptorConformance.DecodeOtherTag | scanner/src/main/java/org/jadira/scanner/core/helper/JavassistMethodInfoHelper.java:132-133 | any other first character decodes to null |
| DescriptorConformance.DecodeIgnoresRest | scanner/src/main/java/org/jadira/scanner/core/helper/JavassistMethodInfoHelper.java:98-131 | apart from `L` tokens, only the first character matters |
| DescriptorConformance.TerminatedEncoding | scanner/src/main/java/org/jadira/scanner/core/helper/JavassistMethodInfoHelper.java:42 | an object or array descriptor ending in an object type is its token followed by `;`, and that token starts with `L` or `[` and, for a well-formed name, holds no `;` |
| DescriptorConformance.EncodeParamsJoin | scanner/src/main/java/org/jadira/scanner/core/helper/JavassistMethodInfoHelper.java:42 | a non-empty parameter list of such descriptors is the `;`-join of their tokens followed by `;` |
| DescriptorConformance.ParamsTextOfShape | scanner/src/main/java/org/jadira/scanner/core/helper/JavassistMethodInfoHelper.java:36 | for `(p)r` with no `)` in `r`, the parameter text is `p`, whatever `)` characters `p` holds |
| DescriptorConformance.ParamsTextOfEncoded | scanner/src/main/java/org/jadira/scanner/core/helper/JavassistMethodInfoHelper.java:36 | for every grammatical method descriptor whose return type's class names avoid `)`, the parameter text is the encoded parameter list |
| DescriptorConformance.SplitEncodedParams | scanner/src/main/java/org/jadira/scanner/core/helper/JavassistMethodInfoHelper.java:42 | splitting an encoded non-empty list of reference parameters gives their tokens without the `;` |
| DescriptorConformance.TokensOfReferenceParameters | scanner/src/main/java/org/jadira/scanner/core/helper/JavassistMethodInfoHelper.java:33-44 | for a method whose parameters are all object types (or arrays of them), and whose return type has no `)` in a class name, the type tokens are exactly one per parameter, in order, without the closing `;` |
| DescriptorConformance.DecodeStripped | scanner/src/main/java/org/jadira/scanner/core/helper/JavassistMethodInfoHelper.java:96-134 | the token of an object parameter decodes to the class `Class.forName` finds for its binary name; the token of an array parameter decodes to `java.util.Arrays` |
| DescriptorConformance.StringParameterToken | scanner/src/main/java/org/jadira/scanner/core/helper/JavassistMethodInfoHelper.java:33-44 | `(Ljava/lang/String;)V` gives the one token `Ljava/lang/String` |
| DescriptorConformance.NoParameterTokens | scanner/src/main/java/org/jadira/scanner/core/helper/JavassistMethodInfoHelper.java:38-40 | a descriptor without parameters, whose return type has no `)` in a class name, gives no tokens |
| DescriptorConformance.TwoIntsDescriptor | scanner/src/main/java/org/jadira/scanner/core/helper/JavassistMethodInfoHelper.java:42 | the descriptor of a method taking `(int, int)` and returning nothing is `(II)V` |
| DescriptorConformance.AdjacentBaseTypesShareAToken | scanner/src/main/java/org/jadira/scanner/core/helper/JavassistMethodInfoHelper.java:42 | the helper makes the one token `II` of `(II)V` |
| DescriptorConformance.ParenInReturnClassName | scanner/src/main/java/org/jadira/scanner/core/helper/JavassistMethodInfoHelper.java:36 | a `)` in the class name of the return type ends the parameter text there instead: the text is the parameter list, `)L` and the part of the name before its last `)` |
| DescriptorConformance.ParenInReturnClassNameTokens | scanner/src/main/java/org/jadira/scanner/core/helper/JavassistMethodInfoHelper.java:33-44 | `(La;)Lb)c;`, one parameter of class `a` returning class `b)c`, gives the two tokens `La` and `)Lb` |
| DescriptorConformance.SlotOffsetVersusJvms | scanner/src/main/java/org/jadira/scanner/core/helper/JavassistMethodInfoHelper.java:59-66 | the offset is the first parameter slot of the Java Virtual Machine Specification plus one for a synchronized method, so the two differ exactly there |
| MonetaColumnMapper.BigDecimalColumnFastMoneyMapper.ToNonNullValue | usertype.extended/src/main/java/org/jadira/usertype/moneyandcurrency/moneta/columnmapper/BigDecimalColumnFastMoneyMapper.java:39-45 | with no currency configured it throws `NullPointerException`; otherwise it returns the amount's number exactly when the amount is in the configured currency, and throws the `IllegalStateException` naming both currencies otherwise |
| MonetaColumnMapper.BigDecimalColumnFastMoneyMapper.FromNonNullValue | usertype.extended/src/main/java/org/jadira/usertype/moneyandcurrency/moneta/columnmapper/BigDecimalColumnFastMoneyMapper.java:34-37 | fails (null currency) exactly when no currency is configured; otherwise the amount has that currency and number, and `toNonNullValue` turns it back into the number |
| MonetaColumnMapper.BigDecimalColumnFastMoneyMapper.FromNonNullString | usertype.extended/src/main/java/org/jadira/usertype/moneyandcurrency/moneta/columnmapper/BigDecimalColumnFastMoneyMapper.java:47-56 | without a space it throws `StringIndexOutOfBoundsException`; otherwise the code is the space-free text before the first space and the amount everything after it; `parseLong` of the amount runs before the currency lookup, its `NumberFormatException` wins, then an unknown currency throws; on success the amount is that `long` at scale 0 in that currency |
| MonetaColumnMapper.BigDecimalColumnFastMoneyMapper.SetCurrencyUnit | usertype.extended/src/main/java/org/jadira/usertype/moneyandcurrency/moneta/columnmapper/BigDecimalColumnFastMoneyMapper.java:63-66 | the configured currency becomes the given one |
| MonetaColumnMapper.FromAmountString | usertype.extended/src/main/java/org/jadira/usertype/moneyandcurrency/moneta/columnmapper/BigDecimalColumnFastMoneyMapper.java:47-56 | a space-free registered code, one space and the decimal text of a `long` read back as that amount in that currency |
| MonetaColumnMapper.LaterSpaceStaysInAmount | usertype.extended/src/main/java/org/jadira/usertype/moneyandcurrency/moneta/columnmapper/BigDecimalColumnFastMoneyMapper.java:50-55 | only the first space separates; any later space ends up in the amount text, which `parseLong` rejects |
| OffsetTimeType.GetProperty | usertype.jsr310/src/main/java/org/jadira/usertype/dateandtime/jsr310/PersistentOffsetTimeAsTimestamp.java:49 | `getProperty` is null exactly when the key is absent, and the stored value otherwise |
| OffsetTimeType.TimestampColumnOffsetTimeMapper.SetDatabaseZone | usertype.jsr310/src/main/java/org/jadira/usertype/dateandtime/jsr310/PersistentOffsetTimeAsTimestamp.java:52-54 | sets the database zone and leaves the Java zone |
| OffsetTimeType.TimestampColumnOffsetTimeMapper.SetJavaZone | usertype.jsr310/src/main/java/org/jadira/usertype/dateandtime/jsr310/PersistentOffsetTimeAsTimestamp.java:60-62 | sets the Java zone and leaves the database zone |
| OffsetTimeType.PersistentOffsetTimeAsTimestamp.SetParameterValues | usertype.jsr310/src/main/java/org/jadira/usertype/dateandtime/jsr310/PersistentOffsetTimeAsTimestamp.java:43-66 | the mapper's zones afterwards, and whether the call threw, are those of the property rules applied to the zones before: `databaseZone` first, then `javaZone` |
| OffsetTimeType.NullParametersChangeNothing | usertype.jsr310/src/main/java/org/jadira/usertype/dateandtime/jsr310/PersistentOffsetTimeAsTimestamp.java:45 | null properties change neither zone and throw nothing |
| OffsetTimeType.ZoneSettingCases | usertype.jsr310/src/main/java/org/jadira/usertype/dateandtime/jsr310/PersistentOffsetTimeAsTimestamp.java:49-64 | an absent property keeps the zone; `jvm` clears it to the JVM zone; any other value succeeds exactly when `ZoneOffset.of` accepts it and then sets that offset |
| OffsetTimeType.DatabaseZoneIndependent | usertype.jsr310/src/main/java/org/jadira/usertype/dateandtime/jsr310/PersistentOffsetTimeAsTimestamp.java:49-56 | the database zone ends as its own property says whatever `javaZone` holds; a bad `databaseZone` throws before either zone changes |
| OffsetTimeType.JavaZoneIndependent | usertype.jsr310/src/main/java/org/jadira/usertype/dateandtime/jsr310/PersistentOffsetTimeAsTimestamp.java:57-64 | once `databaseZone` is applied, the Java zone ends as its own property says, or the call throws with the database zone already updated and the Java zone unchanged |
| OffsetTimeType.NoRollback | usertype.jsr310/src/main/java/org/jadira/usertype/dateandtime/jsr310/PersistentOffsetTimeAsTimestamp.java:54-62 | a valid `databaseZone` followed by an invalid `javaZone` leaves the new database zone in place and throws |

## Left out

- Javassist's class-file reading is not modelled: the constant pool, attribute lookup by name and the byte layout of `LocalVariableTable`. A method is given directly as its descriptor, its flags and the entry names of its table.
- An attribute named `LocalVariableTable` that is not a `LocalVariableAttribute` would make the cast throw `ClassCastException`. Javassist never returns one, so this is not modelled.
- `Class.forName` is a parameter. Its linkage and initialisation errors, and the class loader, are not modelled. Classes are known only by their names, so `Byte.class` becomes the name `java.lang.Byte`.
- The Java arrays the helper returns are modelled as sequence values, so aliasing of the returned arrays is not captured.
- `Long.parseLong` accepts only ASCII digits here. `Character.digit` also accepts other Unicode decimal digits.
- JavaNumbers.ParseLong: the ensures do not restate the accepted grammar as an if-and-only-if. The converse direction is proved only for the text `"" + n` of an in-range `n`, by ParseLongOfToString.
- `FastMoney`'s own arithmetic is not modelled: its fixed scale of five, and the `ArithmeticException` for amounts outside its range. An amount is the `BigDecimal` or `long` it is built from, and `numberValue(BigDecimal.class)` gives that number back.
- `MonetaryAmount` values in other `MonetaryAmount` implementations are not modelled; only the number and the currency are kept.
- The mismatch message built by `toNonNullValue` uses the currency's `toString`. The model takes that to be the currency code, as Moneta's `JDKCurrencyAdapter` gives it.
- `toNonNullString` only calls `FastMoney.toString`, which belongs to the Moneta library. `FastMoney.toString` is not part of this model.
- `Monetary.getCurrency` and `ZoneOffset.of` are parameters. Their registries and offset-id grammar belong to the libraries.
- `java.util.Properties` is a map from strings to strings. Its defaults chain and non-string values are not modelled.
- `getColumnMapper()` and the rest of `AbstractSingleColumnUserType` are not part of this model. The user type holds its column mapper as a field.
- `TimestampColumnOffsetTimeMapper`'s conversions and the zones it starts with are not part of this model, only its two zone setters.
- Concurrency is not modelled. The Java classes are not thread-safe, and the model treats each call as atomic.
