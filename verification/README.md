# GTFS validator: drop-off-type codec, raw file identity, missing-value notice

A Dafny model of three pieces of the GTFS feed validator's domain and notice layers:

- **DropOffType** — the codec for the `drop_off_type` field of `stop_times.txt`. Four variants carry the codes 0 to 3. `fromInt` maps an absent code to `REGULAR_DROP_OFF`, a known code to its variant, and an unknown code to `null`, the invalid marker. `isEnumValid` counts absence as valid and an unknown code as invalid. Java's nullable `Integer` input is `Option<int>`, and the `null` result is `None`.
- **RawFileInfo** — the immutable identity (file name, path) of a raw feed file, assembled by `RawFileInfoBuilder`. The builder is a class whose fluent setters overwrite one field each and return the builder itself. `build()` snapshots both fields into an immutable datatype value, whose destructors `filename` and `path` play the getters `getFilename()` and `getPath()`. Java's nullable `String` is `NullableString = Option<string>`, so a field never set is `None`.
- **MissingRequiredValueNotice** — the error notice emitted when a required field has no value. The model stops at the tuple (file name, code, title, message) handed to the `ErrorNotice` base constructor. The code `E_015` is an opaque token.

Files: `wrappers.dfy` (Option), `drop_off_type.dfy`, `raw_file_info.dfy`, `missing_required_value_notice.dfy`.

The doc comment of `fromInt` says that an unexpected value throws `IllegalArgumentException`. The code returns `null` instead, and the model follows the code.

## Model

| member | source | states |
|---|---|---|
| DropOffTypes.Value | domain/src/main/java/org/mobilitydata/gtfsvalidator/domain/entity/gtfs/stoptimes/DropOffType.java:30-39 | every variant's code lies in 0..3 |
| DropOffTypes.AnyMatch | domain/src/main/java/org/mobilitydata/gtfsvalidator/domain/entity/gtfs/stoptimes/DropOffType.java:71-72 | `anyMatch` over the variants holds iff some listed variant carries the code |
| DropOffTypes.FindAny | domain/src/main/java/org/mobilitydata/gtfsvalidator/domain/entity/gtfs/stoptimes/DropOffType.java:57-59 | `filter`/`findAny` finds a variant exactly when `anyMatch` holds, and what it finds is listed and carries the code |
| DropOffTypes.FromInt | domain/src/main/java/org/mobilitydata/gtfsvalidator/domain/entity/gtfs/stoptimes/DropOffType.java:50-61 | absent code gives REGULAR_DROP_OFF; the result is the invalid marker iff the code is present and not valid; a decoded variant carries the given code |
| DropOffTypes.ValuesListsEveryVariant | domain/src/main/java/org/mobilitydata/gtfsvalidator/domain/entity/gtfs/stoptimes/DropOffType.java:29-33 | `values()`, the constant `Values`, lists all four variants |
| DropOffTypes.ValueInjective | domain/src/main/java/org/mobilitydata/gtfsvalidator/domain/entity/gtfs/stoptimes/DropOffType.java:30-33 | the four codes are pairwise distinct |
| DropOffTypes.IsEnumValid | domain/src/main/java/org/mobilitydata/gtfsvalidator/domain/entity/gtfs/stoptimes/DropOffType.java:69-80 | `isEnumValid` holds iff the code is absent (the null comparison throws and the handler answers true) or one of 0, 1, 2, 3 |
| DropOffTypes.IsEnumValidIffSomeVariant | domain/src/main/java/org/mobilitydata/gtfsvalidator/domain/entity/gtfs/stoptimes/DropOffType.java:69-72 | a present code is valid iff some variant carries it |
| DropOffTypes.FromIntUnique | domain/src/main/java/org/mobilitydata/gtfsvalidator/domain/entity/gtfs/stoptimes/DropOffType.java:57-60 | a present valid code decodes to the unique variant carrying it, so `.get()` never fails |
| DropOffTypes.FromIntRoundTrip | domain/src/main/java/org/mobilitydata/gtfsvalidator/domain/entity/gtfs/stoptimes/DropOffType.java:30-33 | decoding any variant's code gives that variant back |
| DropOffTypes.FromIntUnknownIsInvalid | domain/src/main/java/org/mobilitydata/gtfsvalidator/domain/entity/gtfs/stoptimes/DropOffType.java:54-56 | a present code outside 0..3 decodes to the invalid marker, which differs from the default |
| RawFileInfos.RawFileInfoBuilder.constructor | domain/src/main/java/org/mobilitydata/gtfsvalidator/domain/entity/RawFileInfo.java:33-38 | a new builder has both fields null |
| RawFileInfos.RawFileInfoBuilder.Filename | domain/src/main/java/org/mobilitydata/gtfsvalidator/domain/entity/RawFileInfo.java:40-43 | sets the file name, leaves the path unchanged, returns the same builder |
| RawFileInfos.RawFileInfoBuilder.Path | domain/src/main/java/org/mobilitydata/gtfsvalidator/domain/entity/RawFileInfo.java:45-48 | sets the path, leaves the file name unchanged, returns the same builder |
| RawFileInfos.RawFileInfoBuilder.Build | domain/src/main/java/org/mobilitydata/gtfsvalidator/domain/entity/RawFileInfo.java:50-61 | the built value's `filename` and `path` (the getters `getFilename()`, `getPath()`) are the builder's current fields; the builder is not modified |
| RawFileInfos.Builder | domain/src/main/java/org/mobilitydata/gtfsvalidator/domain/entity/RawFileInfo.java:29-31 | `builder()` returns a fresh builder with no field set |
| RawFileInfos.BuildWithFilename | domain/src/main/java/org/mobilitydata/gtfsvalidator/domain/entity/RawFileInfo.java:40-57 | after setting only the file name, `getFilename()` returns it and `getPath()` is null |
| RawFileInfos.BuildWithPath | domain/src/main/java/org/mobilitydata/gtfsvalidator/domain/entity/RawFileInfo.java:45-61 | after setting only the path, `getPath()` returns it and `getFilename()` is null |
| RawFileInfos.BuildLastWriteWins | domain/src/main/java/org/mobilitydata/gtfsvalidator/domain/entity/RawFileInfo.java:40-51 | when the file name is set twice the last value wins, and the path set in between is kept |
| RawFileInfos.BuildTwice | domain/src/main/java/org/mobilitydata/gtfsvalidator/domain/entity/RawFileInfo.java:50-52 | two builds from one builder carry the same file name and path |
| MissingRequiredValueNotices.Message | usecase/src/main/java/org/mobilitydata/gtfsvalidator/usecase/notice/MissingRequiredValueNotice.java:26 | the message is the prefix, then the field name, then the middle literal, then the entity id, and its length is the sum of theirs |
| MissingRequiredValueNotices.MissingRequiredValueNotice | usecase/src/main/java/org/mobilitydata/gtfsvalidator/usecase/notice/MissingRequiredValueNotice.java:23-26 | the file name passes through unchanged, the code is E_015, the title is "Missing required value", and the message is the rendered one |
| MissingRequiredValueNotices.CodeAndTitleFixed | usecase/src/main/java/org/mobilitydata/gtfsvalidator/usecase/notice/MissingRequiredValueNotice.java:24-25 | any two notices share their code and title, whatever their arguments |
| MissingRequiredValueNotices.MessageDeterminesArguments | usecase/src/main/java/org/mobilitydata/gtfsvalidator/usecase/notice/MissingRequiredValueNotice.java:26 | for field names of equal length, equal messages mean equal field names and equal entity ids |
| MissingRequiredValueNotices.MessageAmbiguousAcrossLengths | usecase/src/main/java/org/mobilitydata/gtfsvalidator/usecase/notice/MissingRequiredValueNotice.java:26 | field names of different lengths can give the same message, when an argument contains the middle literal |
| MissingRequiredValueNotices.NoticeEquality | usecase/src/main/java/org/mobilitydata/gtfsvalidator/usecase/notice/MissingRequiredValueNotice.java:23-26 | equal arguments give equal notices; for field names of equal length, equal notices have equal arguments |

## Left out

- TimeUtils (`usecase/src/main/java/org/mobilitydata/gtfsvalidator/usecase/utils/TimeUtils.java`): an interface whose three operations have no bodies. Time parsing, formatting and period overlap are not part of this model.
- The `ErrorNotice` base class and the concrete value of `E_015` are not part of this model. The notice is modelled as the arguments handed to the base constructor.
- Java's rendering of a `null` operand as the text "null" in string concatenation is not modelled. The notice's arguments are non-null strings.
- Exceptions and boxing are not modelled. The `NullPointerException` caught in `isEnumValid` becomes the `None` case of the optional input.
- Java's `findAny` may return any matching element, while the model's FindAny returns the first match. Codes are distinct, so at most one variant matches (FromIntUnique).
- RawFileInfo: a datatype value. Java's `build()` returns a fresh object on each call, and since the class does not override `equals`, equality there is reference identity. The model compares the file name and path only.
- The variants' `value` field is private and has no getter. It is modelled as the function `Value`.
