# pybabynames: framework resolution and all-or-nothing table loading

pybabynames ships four static datasets (baby names, applicants, births and life
tables) as parquet files. On import it loads them as dataframes with either pandas
or polars. This model covers the package's only decision logic, in
`pybabynames/__init__.py`:

- **Framework resolution** (`_dataframe_framework`). The module `FrameworkResolver`
  (resolver.dfy) models it as the pure function `Resolve`. Resolution lower-cases the
  `DATAFRAME_FRAMEWORK` setting, falling back to `'polars'` when it is unset. An
  unrecognised name is replaced by the default, with an "invalid" warning. The
  preferred framework is returned when it is installed. Otherwise the first installed
  framework in the list `['pandas', 'polars']` is returned, with a "switching"
  warning. With exactly two frameworks that scan runs only when the preferred one is
  missing, so it can only return the other one; the list order is visible only in
  the contract of `FirstAvailable`, not in the result of `Resolve`. When neither is
  installed, resolution raises `ImportError`.
  The environment is an explicit input: the setting is an `Option<string>` and the
  availability map is a function `Framework -> bool`. Warnings are recorded as an
  ordered list of warning kinds.
- **Loading on import** (the `try` block). The module `DataLoader` (loader.dfy)
  models the package's module state as the class `Package<T>`. Its four fields
  `babynames`, `applicants`, `births` and `lifetables` have type `Option<T>`. The
  method `LoadTables` binds them one after the other. The first read that raises
  resets all four to `None` and emits the warning of the matching `except` branch.
  A table is opaque (the type parameter `T`). A read is an oracle
  `load(framework, dataset)` that returns `Loaded(table)`, `ImportFailure` or
  `OtherFailure`. The pure function `LoadBlock` gives the expected outcome of the
  block, and the lemmas prove the all-or-nothing property about it.
  `Import` puts the two parts together.

Lower-casing is modelled as ASCII lower-casing. Python's `str.lower()` maps only
two non-ASCII characters to ASCII letters, KELVIN SIGN to `k` and LATIN CAPITAL
LETTER I WITH DOT ABOVE to `i` plus a combining dot. Neither letter occurs in
`pandas` or `polars`, so this choice does not change which framework is chosen.

No framework installed is not one of the failures that leave the tables `None`.
`_dataframe_framework()` runs at line 49, outside the `try` that starts at line 74.
Its `ImportError` therefore escapes, and the import itself fails. `Import` returns
`ImportFailed` in that case, never a package whose tables are all `None`. Only a
failing read leaves the package importable with every table `None`. That includes an
`ImportError` raised by `import_module` or by the parquet reader.

## Model

| member | source | states |
|---|---|---|
| `FrameworkResolver.Lower` | pybabynames/__init__.py:32 | the `.lower()` call: the result has the input's length, each character is the ASCII lower case of the input's character at the same position, and no upper-case ASCII letter remains |
| `FrameworkResolver.AsciiLower` | pybabynames/__init__.py:32 | one character's lower case: an upper-case ASCII letter becomes the matching lower-case letter, any other character is unchanged, and the result is never an upper-case ASCII letter |
| `FrameworkResolver.Requested` | pybabynames/__init__.py:32 | the `os.environ.get(..., 'polars').lower()` expression: `polars` when the variable is unset, otherwise the setting lower-cased character by character |
| `FrameworkResolver.Preferred` | pybabynames/__init__.py:34-36 | the default substitution: the framework named by the requested name, or the default when that name is not recognised; the default when the variable is unset |
| `FrameworkResolver.ConfigWarnings` | pybabynames/__init__.py:34-35 | definition of the "invalid" warning (none exactly when the requested name is recognised, otherwise one warning carrying the requested name); `InvalidPrefersDefault` and `InvalidIsDefault` prove what it means for the result |
| `FrameworkResolver.LowerKeepsLowercase` | pybabynames/__init__.py:32 | lower-casing leaves a string with no upper-case ASCII letter unchanged, so the default name `polars` stays `polars` |
| `FrameworkResolver.LowerIgnoresCase` | pybabynames/__init__.py:32 | two strings that differ only in ASCII letter case have the same lower-case form |
| `FrameworkResolver.FromName` | pybabynames/__init__.py:34 | a name is recognised exactly when it equals the name of one of `VALID_FRAMEWORKS`, and it then yields that framework |
| `FrameworkResolver.FirstAvailable` | pybabynames/__init__.py:41 | the scan finds nothing exactly when no framework in the list is installed; otherwise it yields an installed framework such that every framework before it in the list is missing |
| `FrameworkResolver.Choose` | pybabynames/__init__.py:38-46 | an installed preferred framework is returned silently; otherwise a successful result is installed, differs from the preferred one and comes with one "switching" warning naming both; failure happens exactly when no framework is installed, with no warning |
| `FrameworkResolver.Resolve` | pybabynames/__init__.py:22-46 | a successful result is a member of `VALID_FRAMEWORKS` and is installed; resolution fails exactly when no framework is installed; it returns something other than the preferred framework only when the preferred one is missing; at most two warnings are emitted |
| `FrameworkResolver.MixedCaseSelects` | pybabynames/__init__.py:32-39 | the setting `PaNdAs` with pandas installed resolves to pandas with no warning at all |
| `FrameworkResolver.PreferredAvailableIsChosen` | pybabynames/__init__.py:32-39 | when the lower-cased setting names an installed framework, the result is that framework and no warning is emitted |
| `FrameworkResolver.ResolveIgnoresCase` | pybabynames/__init__.py:32 | two settings that differ only in ASCII letter case give the same result with the same warnings |
| `FrameworkResolver.UnsetPrefersDefault` | pybabynames/__init__.py:32-36 | with the variable unset, the requested name is `polars`, the preferred framework is the default, and no "invalid" warning is emitted |
| `FrameworkResolver.UnsetIsDefault` | pybabynames/__init__.py:32 | an unset variable resolves exactly like the setting `polars`; its only possible warning is a switch from polars to pandas |
| `FrameworkResolver.InvalidPrefersDefault` | pybabynames/__init__.py:34-36 | an unrecognised lower-cased setting is replaced by the default framework and reported by one "invalid" warning carrying that value |
| `FrameworkResolver.InvalidIsDefault` | pybabynames/__init__.py:34-36 | an unrecognised setting gives the same result as the default, and its warnings are one "invalid" warning carrying the lower-cased value, followed by the default's warnings |
| `FrameworkResolver.FallbackIsFirstAvailable` | pybabynames/__init__.py:41-44 | when the preferred framework is missing and one is installed, the result is pandas if pandas is installed, else polars; it differs from the preferred one; exactly one "switching" warning naming both follows the configuration warnings |
| `FrameworkResolver.FallbackPrefersPandas` | pybabynames/__init__.py:41-44 | with two frameworks the fallback can only return the one other than the missing preferred framework, so pandas wins whenever the preferred one is missing and pandas is installed |
| `DataLoader.FailureWarning` | pybabynames/__init__.py:79-84 | definition of the `except` dispatch (an `ImportError` gives the "library unavailable" warning, any other exception the "failed to load" warning); `FailureResetsEarlierTables` proves that the failing read's warning is the one emitted |
| `DataLoader.LoadInOrder` | pybabynames/__init__.py:74-78 | the reads succeed exactly when every dataset's read succeeds, and then the tables are the ones read, in order; otherwise the report names the first dataset whose read raised, with that exception's warning |
| `DataLoader.LoadBlock` | pybabynames/__init__.py:74-84 | the outcome of the block: all loaded exactly when every dataset's read succeeds, then with four tables; on failure it names a dataset whose read raised and that exception's warning |
| `DataLoader.Bindings` | pybabynames/__init__.py:75-84 | definition of the names after the block (each bound to its table when all reads succeeded, all four `None` after a failure); `AllOrNothing` proves the all-or-nothing property from the reads themselves |
| `DataLoader.LoadWarnings` | pybabynames/__init__.py:80-83 | definition of the block's warnings (none after success, otherwise the one warning of the `except` branch that ran); `FailureResetsEarlierTables` and `AllTablesLoaded` prove which warning a given sequence of reads yields |
| `DataLoader.AllOrNothing` | pybabynames/__init__.py:74-84 | after the block, the four names hold the four tables read in load order when every read succeeds, and all four are `None` otherwise |
| `DataLoader.FailureResetsEarlierTables` | pybabynames/__init__.py:74-84 | when the reads before position k succeed and the read at k raises, the block fails at that dataset, all four names are `None` (tables read earlier included), and exactly that exception's warning is emitted |
| `DataLoader.AllTablesLoaded` | pybabynames/__init__.py:74-78 | when all four reads succeed, each name is bound to its own table and no warning is emitted |
| `DataLoader.Package.constructor` | pybabynames/__init__.py:17-49 | the state before the block: the availability map and the active framework are recorded, the resolution warnings are kept, and no table is bound |
| `DataLoader.Package.Abandon` | pybabynames/__init__.py:79-84 | an `except` branch appends its warning and binds all four names to `None` |
| `DataLoader.Package.LoadTables` | pybabynames/__init__.py:74-84 | reads in order, binding each name as soon as its table is read, and hands the first failing read to the `except` branch; the names end all bound or all `None`; they equal the bindings that `LoadBlock` prescribes, and the warnings gain exactly the block's warning |
| `DataLoader.Import` | pybabynames/__init__.py:17-84 | the import fails exactly when resolution finds no framework, and it then carries resolution's warnings; otherwise the new package holds the resolved framework, satisfies all-or-nothing, has the tables `LoadBlock` prescribes, and has the resolution warnings followed by the load warnings |

## Left out

- Probing availability with `util.find_spec` (lines 17-20) is a foreign runtime call. The availability map is an input.
- Importing the framework with `import_module` (lines 51-58) and reading parquet with `read_parquet` (lines 60-71) are foreign calls. Their combined effect is the oracle `load`, whose failures are split into `ImportError` and any other exception.
- The data directory and the path joins (lines 7, 75-78) are filesystem plumbing. A read is keyed by the dataset; `FileName` names the file that `load(framework, d)` stands for reading.
- Attaching `__doc__` strings to the loaded tables (lines 85-145) is cosmetic and has no behaviour to verify.
- The text of the warnings, the `RuntimeWarning` category and the `warnings` machinery are left out. Warnings are kinds in an ordered list. The "invalid" warning keeps the lower-cased value, and the "switching" warning keeps both frameworks.
- Table contents, schemas and non-emptiness are left out because the datasets are external files. Tables are opaque values.
- Reads are deterministic by construction, because the oracle is a function.
- Python's full Unicode `str.lower()` is left out; `Lower` lower-cases ASCII letters only.
