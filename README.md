# Request-schema validation of the Memphis broker's HTTP layer

This project models the request-validation adapter the broker's
administrative HTTP handlers call before they do any work
(`utils/schema_validation.go`):

- `descriptive` turns the validator's field errors into `{field, reason}`
  records. The reason is the constraint's tag, followed by `=param` when the
  constraint has a parameter.
- The tag-name function registered with the validator names each struct
  field after its `json` tag. The name is the part of the tag before the
  first comma, and `-` gives no name.
- For a request whose method is not GET and that is expected to carry a
  file (the `containFile` flag), the uploaded file is admitted only when its
  extension, as `filepath.Ext` computes it, is `.png`, `.jpg` or `.jpeg`.
  The comparison is case-sensitive.
- `validateSchema` and `Validate` decide, from the request method, the
  "file expected" flag and what the framework's binders produced, whether
  the handler may go on. On failure they say which status and message the
  request is aborted with. They also say whether the uploaded header is
  stored through the caller's `file` pointer.

Layout:

- `gostd.dfy` (module `GoStd`) holds the two Go library operations the
  adapter calls: `strings.SplitN(s, sep, 2)` (as `SplitFirst`) and
  `filepath.Ext`. It also defines `HasSuffix`, with the meaning of Go's
  `strings.HasSuffix`. The adapter does not call it; it is used only to
  state the extension lemmas.
- `validation.dfy` (module `SchemaValidation`) holds the adapter itself.
  - The request context is a class, `Context`. Its constant fields hold
    the request method and the outcomes of `ShouldBind`, `ShouldBindJSON`
    and `FormFile("file")`. Its mutable fields are the responses written so
    far and the aborted flag, which `AbortWithStatusJSON` updates.
  - The caller's `*multipart.FileHeader` is a `FileSlot` object whose
    `header` field `ValidateSchema` may overwrite.
  - The methods `ValidateSchema` and `Validate` follow the Go code branch by
    branch. Each is proved against a specification function
    (`SchemaDecision`, `ValidateDecision`). Those functions carry the
    cross-path guarantees, and lemmas state the outcome of each path.
- `SHOWABLE_ERROR_STATUS_CODE` comes from configuration that is not part of
  this model, so it is a parameter, `showableStatus`.

## Model

| member | source | states |
|---|---|---|
| GoStd.SplitFirst | utils/schema_validation.go:55 | `SplitN(tag, ",", 2)` gives one or two parts. The first part never contains the separator. There is one part, equal to the whole string, exactly when the separator is absent. Otherwise the string is first part + separator + second part. |
| GoStd.SplitFirstJoin | utils/schema_validation.go:55 | Splitting `left + sep + right` gives back `[left, right]` whenever `left` has no separator. |
| GoStd.Ext | utils/schema_validation.go:79 | `filepath.Ext` returns a suffix of the path. That suffix is empty or starts with '.', and it has no '.' or '/' after its first character. It is empty only when every '.' in the path is followed by a later '/'. |
| GoStd.ExtOfSuffix | utils/schema_validation.go:79 | A path that ends in '.' followed by characters that are neither '.' nor '/' has exactly that ending as its extension. |
| SchemaValidation.Reason | utils/schema_validation.go:42-45 | The reason starts with the tag. It is exactly the tag when the parameter is empty; otherwise the tag is followed by '=' and then the parameter. |
| SchemaValidation.Descriptive | utils/schema_validation.go:38-50 | Returns one record per field error, in the same order, so an empty input gives an empty list. Each record's field is the error's field, and its reason is `Reason` of the error. |
| SchemaValidation.ReasonRoundTrip | utils/schema_validation.go:42-46 | The reason is the bare tag when the parameter is empty, and `tag=param` otherwise. Splitting it at the first '=' gives back the tag and the parameter when the tag has no '='. |
| SchemaValidation.TagName | utils/schema_validation.go:54-60 | The name has no comma and is never "-". A non-empty name is a prefix of the tag that ends at the tag's end or at a comma. The name is empty exactly when the tag is empty, starts with a comma, or is "-" alone or followed by a comma. |
| SchemaValidation.TagNameWithOptions | utils/schema_validation.go:55-59 | `name,options` is named `name`, and `-,options` gets the empty name. |
| SchemaValidation.TagNameWithoutOptions | utils/schema_validation.go:55-59 | A tag without a comma is its own name, except that "-" gives the empty name. |
| SchemaValidation.AllowedExtension | utils/schema_validation.go:80 | The test compares the extension case-sensitively with ".png", ".jpg" and ".jpeg". Anything it admits is a dot followed by three or four lower-case letters. |
| SchemaValidation.AdmittedIffSuffix | utils/schema_validation.go:79-84 | The extension test passes exactly when the file name ends in ".png", ".jpg" or ".jpeg". |
| SchemaValidation.UpperCaseRefused | utils/schema_validation.go:79-84 | Names ending in ".PNG", ".JPG" or ".JPEG" are refused. |
| SchemaValidation.NoExtensionRefused | utils/schema_validation.go:79-84 | A name without any '.' has an empty extension and is refused. |
| SchemaValidation.SchemaDecision | utils/schema_validation.go:64-98 | Validation errors are handed back and never aborted on. Every abort reports an error, and every error is handed back or aborted on. A header is stored exactly for a non-GET request that expects a file and has an admitted upload. In that case no error is reported. |
| SchemaValidation.ValidateSchema | utils/schema_validation.go:64-98 | Returns the results of `SchemaDecision`. It appends that decision's abort, if any, to the responses and sets the aborted flag. `file` changes only to the admitted upload. |
| SchemaValidation.ValidateDecision | utils/schema_validation.go:100-108 | At most one response is written. The result is false exactly when one was written. `file` changes only on a successful upload by a non-GET request expecting a file, and then the result is true. |
| SchemaValidation.Validate | utils/schema_validation.go:100-108 | Returns `ValidateDecision`'s result. The responses grow by that decision's aborts and `file` holds its header. |
| SchemaValidation.MissingFileAborts | utils/schema_validation.go:72-77 | An unreadable upload gives false and one response: the showable status with the upload-failure message. `file` is unchanged. |
| SchemaValidation.WrongFormatAborts | utils/schema_validation.go:79-84 | An upload whose name ends in none of the three extensions gives false and one response: the showable status with the "only png,jpg or jpeg" message. `file` is unchanged. |
| SchemaValidation.UploadStored | utils/schema_validation.go:86-87 | An upload with an admitted name gives true with no response, and `file` holds the uploaded header. |
| SchemaValidation.NotJsonAborts | utils/schema_validation.go:88-95 | A non-GET request that expects no file and whose body fails to bind for a reason other than validation gives false. It writes one 400 response with the "Body params have to be in JSON format" message. |
| SchemaValidation.BoundRequestPasses | utils/schema_validation.go:65-97 | A request that binds gives true with no response and leaves `file` unchanged. For GET this holds whatever the file flag is; for other methods it holds when no file is expected. |
| SchemaValidation.ValidationErrorsAbortOnce | utils/schema_validation.go:100-105 | Validation errors from either binder give false and exactly one response: 400 with the `descriptive` records of those errors. |
| SchemaValidation.GetOtherErrorPasses | utils/schema_validation.go:65-70 | A GET whose binding fails for a reason other than validation gives true with no response. |

## Left out

- `main.go` (startup sequencing, background tasks, flags, banner) and the UI
  component `ui_src/src/components/tag/index.js` are not part of this model.
  They only call packages whose code is not available, or they render UI.
- The internals of the web framework and the validator are not modelled:
  binding, reflection, multipart parsing, and the `RegisterTagNameFunc` call
  with the engine type assertion in `InitializeValidations`. Their results
  are inputs. `ShouldBind` and `ShouldBindJSON` also fill the schema value,
  and that effect is not modelled.
- SchemaValidation.TagName takes the value of the field's `json` tag.
  Looking that value up in the struct tag (`fld.Tag.Get("json")`) is not
  modelled.
- A Go slice can be nil or empty; a Dafny sequence cannot be nil. The
  records `Descriptive` returns therefore stand for the empty, non-nil slice
  the Go code starts from, which encodes as `[]`. `Validate` tests
  `verr != nil`. The validator never returns a nil `ValidationErrors` inside
  an error, so validation errors from a binder are always treated as
  present, even when their list is empty.
- SchemaValidation.Validate takes a non-null `FileSlot`. A nil `file`
  pointer, on which the Go code would panic on the admitted-upload path, is
  not modelled.
- A file header is reduced to its file name, the only part the adapter
  reads. The size, the MIME header map and the content are copied through
  `file` in Go but are not modelled.
- GoStd.Ext uses '/' as the only path separator, as on Unix. Windows volume
  names and '\\' are not modelled. Go strings are bytes, and the model works
  on characters, which is the same for the ASCII separators involved.
- Logging is not modelled; it is commented out in the source.
