# Document processor: model of the local logic

The pipeline is triggered when an object is uploaded to a Cloud Storage bucket. A
cloud function reads the object's metadata and composes its `gs://bucket/name` URI.
When an API base URL is configured, it posts a four-field payload to the `/process`
endpoint of a backend service. The backend has a generative model classify the
document and extract its fields. It then shapes one warehouse record from the
request and that outcome and attempts exactly one insert into a BigQuery table.
It answers with one of three statuses: `success`, `failed` or `partial_success`.
The backend's warehouse adapter also builds the SQL for listing stored rows and
rewrites their timestamps to text.

Everything the code does not do itself is an input of this model:
- what the extraction model returned (`Api.Extraction`);
- what the warehouse answered to an insert or a query (`Warehouse.InsertReply`,
  `Warehouse.QueryReply`);
- the clock (`Values.Timestamp` parameters);
- the environment (`map<string, string>` and `Option<string>` parameters).

`json.dumps`, Python's `str()` of a value and `datetime.isoformat()` are
uninterpreted function parameters (`dumps`, `show`, `iso`).

Modules:
- `Wrappers`: `Option`.
- `Values`: Python values, `dict` with `.get`, and truthiness.
- `Decimal`: `str(int)`, plus `int(text)` in base 10. `int(text)` strips
  whitespace, accepts one sign and allows underscore grouping.
- `Warehouse` (`backend/bq_handler.py`): the warehouse client as an object that
  logs every call made to it, a `Record` class for the dict that `insert_record`
  changes in place, and the `BigQueryHandler` class. Next to them are the
  specification functions `Normalised`, `InsertResult`, `ListingQuery`,
  `ConvertRow` and `ConvertAll`, with lemmas about them.
- `Api` (`backend/main.py`): the request and extraction outcome, record assembly,
  the three-variant status decision and the `/process` handler as a method.
- `Trigger` (`cloud_function/main.py`): the trigger as a pure function from the
  event data and `API_URL` to the way it ends: raised, returned without posting,
  or returned after one POST.

Behaviours of the code that are easy to misread, and that the model follows as written:
- `/process` tests the extraction error with `if error:`. An extraction that raised
  with an empty message is therefore reported as `success` with type `Unknown`,
  not as `failed` (`Api.EmptyErrorReportsSuccess`).
- `insert_record` serialises only a dict-valued `extracted_data`. A list, a string
  or None is stored as it is, so a list is not turned into JSON text
  (`Warehouse.NormalisedKeepsList`).
- The record is inserted whether or not extraction succeeded.
- An unset project id is printed as `None` in the table reference; the handler's
  own code does not reject it. Whether the SDK client accepts a missing project is
  not modelled, because the client is handed to the handler by its caller.

## Model

| member | source | states |
|---|---|---|
| `Api.BuildRecord` | backend/main.py:33-41 | The record has exactly the seven columns. It copies the request's name, size and URI. It carries the handler's timestamp. With no truthy result, the type is "Unknown" and the data is None; otherwise both come from `result.get`. `error_message` is the extraction error, None on success. |
| `Api.NormalisedRecord` | backend/main.py:37-44 | Normalising a `/process` record keeps its columns and the handler's own timestamp, so the default-timestamp branch never fires. It copies every column except `extracted_data`, and that column no longer holds a dict. |
| `Api.Response.Body` | backend/main.py:51-56 | `status` holds `"success"`, `"failed"` or `"partial_success"`, matching the response's status. `document_type` is present exactly when the status is not `failed`, and then holds the response's type. `error` is present exactly when the status is not `success`; it holds the extraction error for `failed` and the insert error (or None) for `partial_success`. |
| `Api.Decide` | backend/main.py:46-56 | PartialSuccess iff the insert failed. Failed iff it succeeded and the error is truthy. Success iff it succeeded and the error is falsy. Each response carries the insert error, the extraction error or the record's type, as the source returns them. |
| `Api.InsertFailureIsPartialSuccess` | backend/main.py:46-51 | Any insert reply other than "no errors" gives partial success, whatever extraction did. The response carries the insert error (always present) and the record's `document_type`. |
| `Api.ExtractionFailureIsFailed` | backend/main.py:53-54 | A stored row with a non-empty extraction error gives `failed`, and the response carries that error and no `document_type` key. |
| `Api.BothSucceedIsSuccess` | backend/main.py:36-56 | Extraction and insert both succeed: the status is success and the type is the result's `document_type`, or "Unknown" for an empty result. |
| `Api.StatusTable` | backend/main.py:46-56 | Over every extraction outcome and insert reply, exactly one status holds, characterised in terms of the two outcomes. |
| `Api.EmptyErrorReportsSuccess` | backend/main.py:53-56 | An extraction that raised with an empty message, followed by a successful insert, is reported as success with type "Unknown". |
| `Api.ProcessDocument` | backend/main.py:22-56 | Exactly one insert call is made, into the handler's table. It carries the assembled record after normalisation, and nothing is queried. The response is `Respond` of the request, the extraction outcome and the insert reply. |
| `Warehouse.BigQueryHandler.constructor` | backend/bq_handler.py:7-12 | The project id is optional. The dataset and table default to `document_processing` and `processed_documents` only when unset. `table_ref` joins the three with dots, printing a missing project as `None`. |
| `Warehouse.TableRefComponents` | backend/bq_handler.py:12 | A table reference built from dot-free names splits on dots into exactly those three names. |
| `Warehouse.DefaultTableRef` | backend/bq_handler.py:9-12 | With dataset and table unset, the reference names the project, `document_processing` and `processed_documents`. |
| `Warehouse.Normalised` | backend/bq_handler.py:20-26 | A dict under `extracted_data` becomes its JSON text. Any other value there is kept. `processed_at` is set to now only when the key is absent and is kept otherwise. The key set grows by at most `processed_at`, and every other key keeps its value. |
| `Warehouse.NormalisedIdempotent` | backend/bq_handler.py:20-26 | Normalising an already normalised row changes nothing, whatever the second clock reading. |
| `Warehouse.NormalisedIsFlat` | backend/bq_handler.py:20-26 | After normalisation, `processed_at` is present and `extracted_data` is not a dict. |
| `Warehouse.NormalisedKeepsList` | backend/bq_handler.py:21-22 | A list under `extracted_data` is still a list after normalisation. |
| `Warehouse.InsertResult` | backend/bq_handler.py:28-35 | Success iff the client returned an empty error list, and success iff there is no error message. A raised exception gives its text, and a non-empty error list gives its printed form. |
| `Warehouse.Client.InsertRowsJson` | backend/bq_handler.py:28 | The call is logged with its table and rows, and the reply is the service's. |
| `Warehouse.Client.Query` | backend/bq_handler.py:48-49 | The query text is logged, and the reply is the service's. |
| `Warehouse.BigQueryHandler.InsertRecord` | backend/bq_handler.py:14-35 | The record is replaced in place by its normalised form. Exactly one insert of that one row into `table_ref` is logged, including when the reply is an exception. The result is `InsertResult` of the reply. |
| `Warehouse.ListingQuery` | backend/bq_handler.py:43-46 | The query starts with ``SELECT * FROM `table_ref` `` and ends with ` ORDER BY processed_at DESC LIMIT <limit>`. |
| `Warehouse.ListingQueryDateFilter` | backend/bq_handler.py:44-45 | The text between that head and tail is a `WHERE DATE(processed_at) = '…'` clause exactly when the filter is non-empty, and the clause carries the filter verbatim. |
| `Warehouse.ListingQueryLimit` | backend/bq_handler.py:46 | The digits at the end of the query read back as the requested limit, negative limits included. |
| `Warehouse.ConvertRow` | backend/bq_handler.py:53-56 | Conversion fails (AttributeError) exactly when `processed_at` is truthy and not a timestamp. A timestamp is rewritten to its ISO text. A falsy value leaves the row unchanged. The keys and every other field are kept. |
| `Warehouse.ConvertAllRows` | backend/bq_handler.py:51-59 | The row loop succeeds exactly when every row converts, and then there is no error. On success it returns as many records as rows, in order, the i-th being the i-th row converted. |
| `Warehouse.ConvertAllFailureSticks` | backend/bq_handler.py:51-62 | Once a prefix of the rows has raised, the whole listing fails with that message. |
| `Warehouse.PostProcessRows` | backend/bq_handler.py:51-59 | The loop, with its early exit on an exception, computes exactly `ConvertAll` of the rows. |
| `Warehouse.BigQueryHandler.ListRecords` | backend/bq_handler.py:37-62 | Exactly one query, `ListingQuery` of the table, limit and filter, is logged. A raising query gives `(None, message)`. Returned rows give the loop's result. |
| `Decimal.ParseIntOfIntToString` | cloud_function/main.py:17 | `int()` of the decimal text that `str()` prints for any integer gives back that integer. |
| `Trigger.IntOf` | cloud_function/main.py:17 | `int()` of an int is itself. Of a string, it succeeds exactly when the text is a base-10 literal, with that literal's value. Failures are ValueError or TypeError. |
| `Trigger.ProcessGcsUpload` | cloud_function/main.py:13-41 | The trigger raises iff a required key is missing or the size is rejected. A KeyError names a missing required key. It returns without posting iff the event is well formed and `API_URL` is unset or empty. Otherwise it posts to `API_URL + "/process"` exactly the four keys: the composed URI, the name unchanged, the parsed size, and `contentType` or None. |
| `Trigger.GcsUriRoundTrip` | cloud_function/main.py:21 | `gs://bucket/name` with a bucket free of '/' splits back into that bucket and name. |
| `Trigger.MissingBucketRaisesFirst` | cloud_function/main.py:15 | A missing `bucket` raises KeyError('bucket') whatever else the event holds. |
| `Trigger.PostedUriNamesObject` | cloud_function/main.py:21-34 | The posted `gcs_uri` splits back into the event's bucket and object name. |
| `Trigger.DecimalSizeIsPosted` | cloud_function/main.py:17-34 | A size given as the decimal text of n is posted as the integer n. |
| `Trigger.UploadExample` | cloud_function/main.py:15-37 | The upload of `f.pdf` into bucket `b` with size 100 posts `gs://b/f.pdf` with name `f.pdf`, size 100 and no content type to `API_URL/process`. |

## Left out

- `backend/processor.py` (call into the generative model, `json.loads`): only its outcome, a parsed JSON object or an error text, is an input (`Api.Extraction`). A falsy parse that is not an object (`null`, `[]`, `""`, `0`, `false`) takes the `else "Unknown"` branches of `/process` exactly as `Extracted(map[])` does, so the model covers it through the empty object. A truthy non-object (a non-empty list or string, a non-zero number, `true`) would make `result.get` raise unhandled; that path is not modelled.
- The warehouse service itself: how it stores rows, matches dates, orders and limits. No round trip of `extracted_data` through storage is claimed; the model stops at the SQL text and the rows handed back.
- `json.dumps`, `str()` and `isoformat()` are uninterpreted. Their text formats are not modelled, and neither is dict key order, which shows only through them.
- `Warehouse.BigQueryHandler.InsertRecord`: `json.dumps` is total here. A dict holding a non-serialisable value would raise before the insert call; values built by `json.loads` are always serialisable.
- `Warehouse.BigQueryHandler.ListRecords`: an exception raised while the result rows are being fetched is part of the `QueryRaised` reply. The model does not separate it from one raised when the query is submitted.
- `Decimal.ParseInt`: non-ASCII decimal digits, which `int()` also accepts, are not modelled; they are rejected here.
- `Trigger.IntOf`: CPython's limit on integer-string conversion is not modelled. Since Python 3.11, and in the security backports, `int()` raises ValueError for text of more than 4300 digits, but the model converts it. Floats are also absent from the value model, so `int(1.5) == 1` cannot be expressed. Storage events send the size as decimal text, and no real object size comes near 4300 digits.
- `Warehouse.BigQueryHandler.ListRecords`: the same 4300-digit limit applies to `f"{limit}"`. For a limit longer than that, the source raises inside the `try` and returns `(None, message)` without sending a query; the model logs a query instead. No real limit comes near that length.
- The POST's outcome (HTTP errors, network failures) is not an input: every failure is caught and logged, and the trigger returns normally either way.
- FastAPI routing, pydantic validation of the request body, and the constant `/health` endpoint.
- The React front end (`frontend/src/App.jsx`).
- backend/main.py defines no document-listing route and no bearer-token check; `list_records` is modelled as the adapter method it is.
- Printing and logging, and concurrency between invocations (each invocation is independent).
