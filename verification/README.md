# LogKitchen generators in Dafny

LogKitchen produces synthetic security logs for testing log pipelines and SIEM
rules. It has five generators: Linux syslog (sshd, sudo, cron, systemd, kernel,
NetworkManager), Linux auditd records, Windows Security events, CEF firewall
events from five vendors, and Verifone point-of-sale logs. They share a base
generator (seeding, timestamps, IP addresses, user and host names, ports, MAC
addresses, weighted choice). A configuration manager holds nested settings
addressed by dotted keys. Small validators read the log count and the seed
typed on the command line.

This project models each of these as Dafny classes and functions and proves
what their output looks like:

- **Randomness.** Python's `random` module is the class `Random.Rng`: an
  infinite stream of raw draws with a cursor. Each primitive consumes a fixed
  number of draws and says which value it returns for them. These primitives
  are `randint`, `random`, `uniform`, `choice`, `choices`, weighted `choices`
  and `sample`. `random.seed` restarts the stream from a seeding function.
  Faker is the class `Fake.Faker`, with a stream of its own.
- **The clock.** `datetime.now()` is a constructor parameter: an instant in
  epoch microseconds. `strftime` and the local calendar are functions handed
  to the constructors, not part of the model.
- **Generators.** Each generator is a class holding its base generator and
  its constant tables. Each `_generate_*` method becomes a method that
  returns the log line and a record of what it drew. Its `ensures` ties the
  line to a pure render function of that record. Lemmas about the render
  functions state the format properties:
  - the line reads back into the drawn fields;
  - fields hold no separator;
  - identifiers come from the source's tables;
  - the structural invariants hold: a new account's SID is S-1-5-21 followed by four
    numbers of 10, 6, 6 and 4 digits, a
    failed-logon status agrees with its failure reason, argument lists have
    no repeats, and a batch of Verifone lines is sorted newest first.
- **Configuration.** `ConfigManager` is a class whose `config` field is a
  nested value. `update` is proved against a recursive merge function: the
  written key reads back, other keys are unchanged, and it fails exactly when
  a non-dictionary value lies on the path.
- **Batches.** `generate_logs` is a loop that appends one line per step. The
  Verifone batch backdates each line and sorts the batch in place in reverse
  order. That sort is an array method proved equal to a reference sort, with
  the properties proved about the reference.

## Model

| member | source | states |
|---|---|---|
| Random.Rng.constructor | logkitchen/generators/base.py:23-25 | the process starts with an unseeded draw stream at its beginning |
| Random.Rng.Seed | logkitchen/generators/base.py:23-24 | `random.seed(s)` restarts the stream at the one chosen by abs(s), as CPython seeds an int |
| Random.Rng.RandBelow | logkitchen/generators/base.py:43 | one draw reduced below n; nothing else of the stream changes |
| Random.Rng.RandInt | logkitchen/generators/base.py:43 | `randint(lo, hi)` returns a value in [lo, hi] determined by the next draw and consumes exactly one draw |
| Random.Rng.Random | logkitchen/generators/syslog.py:119 | `random()` returns a value in [0, 1) determined by the next draw |
| Random.Rng.Uniform | logkitchen/generators/verifone_pos.py:217 | `uniform(a, b)` lies in [a, b] and is a + (b - a) times the unit value of the next draw |
| Random.Rng.Choice | logkitchen/generators/base.py:72-76 | `choice(xs)` returns an element of xs, the one the next draw selects |
| Random.Rng.Choices | logkitchen/generators/syslog.py:73 | `choices(population, k)` returns k characters of the population, one draw each, in stream order |
| Random.Rng.WeightedIndex | logkitchen/generators/base.py:168-170 | weighted `choices(..., k=1)` returns the index the next draw selects, and consumes no draw when it raises |
| Random.Rng.Sample | logkitchen/generators/auditd.py:130 | `sample(population, k)` fails for k > len(population) without drawing; otherwise it returns the reference sample of the next k draws |
| Random.Rng.SamplePool | logkitchen/generators/auditd.py:130 | the in-place pool loop of `sample` computes the reference sample and consumes k draws |
| Random.UnitOf | logkitchen/generators/syslog.py:119 | the value `random()` returns lies in [0, 1) |
| Random.Reduce | logkitchen/generators/base.py:43 | a draw reduced below n is below n |
| Random.Upcoming | logkitchen/generators/auditd.py:130 | the next m draws are m values |
| Random.UpcomingFirst | logkitchen/generators/auditd.py:130 | the upcoming draws are the next draw followed by the draws after it |
| Random.AccumulateFrom | logkitchen/generators/base.py:170 | running totals from a starting value: entry i is that value plus the first i + 1 weights |
| Random.Accumulate | logkitchen/generators/base.py:170 | `accumulate(weights)`: entry i is the sum of the first i + 1 weights |
| Random.AccumulateNondecreasing | logkitchen/generators/base.py:170 | non-negative weights have non-decreasing running totals |
| Random.BisectRight | logkitchen/generators/base.py:170 | `bisect_right` on a sorted list: every entry before the index is <= x, every entry from it on is > x |
| Random.ChoicesIndex | logkitchen/generators/base.py:170 | weighted choice raises exactly when there are no weights or the total is not positive; otherwise it gives a valid index |
| Random.BisectAccumulate | logkitchen/generators/base.py:170 | the bisected index is the first whose running total exceeds the point |
| Random.ChoicesPoint | logkitchen/generators/base.py:170 | the point looked up, random() times the total, lies in [0, total) |
| Random.ChoicesIndexSelects | logkitchen/generators/base.py:170 | with non-negative weights of positive total, the chosen index has positive weight and its cumulative interval holds the point |
| Random.ChoicesPosition | logkitchen/generators/syslog.py:73 | unweighted `choices` picks a position below the population size |
| Random.TakeFrom | logkitchen/generators/auditd.py:130 | one pool step of `sample` removes one entry |
| Random.TakeFromMultiset | logkitchen/generators/auditd.py:130 | a pool step removes exactly the taken entry and keeps all others |
| Random.TakeFromPrefix | logkitchen/generators/auditd.py:130 | the fixed-length pool that CPython's loop updates agrees, on its live prefix, with the shrinking pool |
| Random.PoolSample | logkitchen/generators/auditd.py:130 | a sample has one element per draw |
| Random.PoolSampleStep | logkitchen/generators/auditd.py:130 | a sample is the entry the first draw selects followed by a sample of the remaining pool |
| Random.PoolLoopOnce | logkitchen/generators/auditd.py:130 | one pass of the pool loop takes the selected entry and consumes one draw |
| Random.PoolLoopSample | logkitchen/generators/auditd.py:130 | running the pool loop to the end appends the reference sample of the live pool |
| Random.PoolSampleMultiset | logkitchen/generators/auditd.py:130 | a sample, as a multiset, is contained in the population: no entry is picked twice |
| Random.SampleMembers | logkitchen/generators/auditd.py:130 | every sampled entry belongs to the population |
| Random.SampleDistinct | logkitchen/generators/auditd.py:130 | a sample of a list without repeats has no repeats |
| Fake.Faker.constructor | logkitchen/generators/base.py:27 | Faker starts with its own unseeded stream |
| Fake.Faker.Seed | logkitchen/generators/base.py:25 | `Faker.seed(s)` restarts Faker's stream at the one chosen by abs(s) |
| Fake.Faker.Name | logkitchen/generators/base.py:101-104 | a name provider returns the next word of Faker's stream, which is non-empty |
| Fake.Faker.Ipv4Public | logkitchen/generators/base.py:96 | `ipv4_public()` returns the next address of Faker's stream, which lies outside RFC 1918 |
| Base.BaseGenerator.constructor | logkitchen/generators/base.py:15-28 | seeds both streams with abs(seed) only for a truthy seed (so not for None or 0); otherwise leaves them as they were; records the seed and the current time |
| Base.BaseGenerator.GenerateDatetime | logkitchen/generators/base.py:57-58 | the instant is a whole number of seconds before now and at most max_days_past days before now; one draw |
| Base.BaseGenerator.GenerateTimestamp | logkitchen/generators/base.py:43-45 | the text is strftime of an instant at most max_days_past days before now; one draw |
| Base.BaseGenerator.GenerateIpAddress | logkitchen/generators/base.py:70-96 | the text is the printed address; a private address has a host part in [1, 254] inside 10/8, 172.16/12 or 192.168/16 and leaves Faker untouched; a public one lies outside RFC 1918 and leaves the random stream untouched |
| Base.GeneratedPrivateIsRfc1918 | logkitchen/generators/base.py:70-94 | every address the private branch can produce lies in an RFC 1918 block |
| Base.BaseGenerator.GenerateUsername | logkitchen/generators/base.py:100-106 | every one of the four patterns yields a non-empty user name |
| Base.BaseGenerator.GenerateHostname | logkitchen/generators/base.py:118-123 | the name is "prefix-n" with n in [1, 100]; a truthy prefix is used as given with one draw, otherwise the prefix comes from the listed nine with two draws |
| Base.PrefixesHaveNoSpace | logkitchen/generators/base.py:121 | no listed host prefix holds a space |
| Base.GeneratedHostHasNoSpace | logkitchen/generators/base.py:118-123 | a generated host name is one word, with no space |
| Base.BaseGenerator.GeneratePort | logkitchen/generators/base.py:145-148 | a well-known port comes from the fourteen listed ones; otherwise the port lies in [1024, 65535]; one draw |
| Base.BaseGenerator.GenerateMacAddress | logkitchen/generators/base.py:150-152 | octet i is randint(0, 255) of the i-th of six draws, and the text is the MAC address of those octets |
| Base.Hex2 | logkitchen/generators/base.py:152 | `f"{o:02x}"` is the high nibble then the low nibble in lowercase hex |
| Base.Hex2Digits | logkitchen/generators/base.py:152 | zero-filling the hex digits of an octet to width two gives exactly its two nibbles |
| Base.HexCharValue | logkitchen/generators/base.py:152 | a lowercase hex digit reads back as its value |
| Base.HexParts | logkitchen/generators/base.py:152 | the list comprehension has one two-digit part per octet, in order |
| Base.JoinPairs | logkitchen/generators/base.py:152 | joining two-character parts with ":" puts part k at offset 3k followed by a colon |
| Base.Mac | logkitchen/generators/base.py:152 | a MAC address is 17 characters: six lowercase hex pairs separated by colons |
| Base.MacShape | logkitchen/generators/base.py:152 | the joined address has length 17, its fields are the octets' hex pairs, and its separators are colons |
| Base.ParseMac | logkitchen/generators/base.py:152 | a MAC address that reads back gives six octets |
| Base.MacRoundTrip | logkitchen/generators/base.py:152 | every generated MAC address reads back as the octets drawn |
| Base.WeightedPick | logkitchen/generators/base.py:168-170 | `weighted_choice` returns a key exactly when the weights have a positive total; the key then has positive weight and the draw falls in its interval; a single positive key is always picked |
| Base.BaseGenerator.WeightedChoice | logkitchen/generators/base.py:168-170 | `weighted_choice` returns the key of the reference pick for the next draw and consumes a draw unless it raises |
| Net.ParseOctet | logkitchen/generators/base.py:79-94 | a field that reads back is all digits and denotes its value |
| Net.DottedFree | logkitchen/generators/base.py:79-94 | a printed address holds only digits and dots |
| Net.OctetRoundTrip | logkitchen/generators/base.py:79-94 | a printed octet reads back as itself |
| Net.DottedRoundTrip | logkitchen/generators/base.py:79-94 | every printed address reads back as the address |
| Net.DottedInjective | logkitchen/generators/base.py:79-94 | distinct addresses print differently |
| Text.NatStr | logkitchen/generators/auditd.py:101 | `str(n)` is non-empty decimal digits, with a leading zero only for 0 |
| Text.IntStr | logkitchen/generators/auditd.py:101 | `str(i)` is the digits of a non-negative number, or a minus sign and the digits of its magnitude |
| Text.NatStrRoundTrip | logkitchen/generators/auditd.py:101 | the digits `str(n)` prints read back as n |
| Text.NatStrInjective | logkitchen/generators/auditd.py:101 | distinct numbers print differently |
| Text.NatStrLength | logkitchen/generators/verifone_pos.py:55-57 | a number in [10^(k-1), 10^k) prints with exactly k digits |
| Text.ZeroPad | logkitchen/generators/auditd.py:68 | a zero-filled field has the requested width (or the digits' own width when longer), ends with the digits and has only zeros in front |
| Text.DigitsValueZeroPad | logkitchen/generators/auditd.py:68 | leading zeros do not change the number a zero-filled field denotes |
| Text.HexStr | logkitchen/generators/auditd.py:92-95 | `f"{n:x}"` and `f"{n:X}"` are non-empty hex digits of the requested case, one digit below 16, two below 256 |
| Text.HexStrBound | logkitchen/generators/auditd.py:92-95 | a number below 16^k prints with at most k hex digits |
| Text.HexStrLength | logkitchen/generators/auditd.py:92-95 | a number in [16^(k-1), 16^k) prints with exactly k hex digits |
| Text.IntStrFree | logkitchen/generators/auditd.py:101 | `str(i)` holds nothing but digits and a leading minus sign |
| Text.JoinSnoc | logkitchen/generators/auditd.py:123 | joining a list extended by one element adds one separator before that element |
| Text.Lower | logkitchen/utils/helpers.py:107 | `lower()` keeps the length and lowers every character |
| Text.Split | logkitchen/generators/auditd.py:89 | `split(c)` is never empty and no part holds c |
| Text.SplitJoin | logkitchen/generators/auditd.py:89 | joining the parts of a split with the separator gives back the string |
| Text.JoinSplit | logkitchen/generators/auditd.py:89 | splitting a join of separator-free parts gives back the parts |
| Text.SplitFree | logkitchen/generators/auditd.py:89 | a string without the separator splits into itself |
| Text.SplitPrefix | logkitchen/generators/auditd.py:89 | a separator-free head followed by the separator contributes exactly one part |
| Text.SplitFirst | logkitchen/generators/auditd.py:68 | cutting at the first separator fails exactly when there is none; the head is separator-free and head, separator and tail rebuild the string |
| Text.SplitFirstAt | logkitchen/generators/auditd.py:68 | cutting a separator-free head followed by the separator gives that head and the rest |
| Text.StripLeft | logkitchen/utils/helpers.py:87 | stripping on the left leaves a suffix that does not start with white space |
| Text.StripRight | logkitchen/utils/helpers.py:87 | stripping on the right leaves a prefix that does not end with white space |
| Text.Strip | logkitchen/utils/helpers.py:87 | `str.strip()` as `int()` applies it: leading then trailing white space removed; its halves are StripLeft and StripRight |
| Text.ParseInt | logkitchen/utils/helpers.py:87 | `int(s)` on text: optional surrounding white space, an optional sign, then decimal digits, else no value; ParseIntDigits, ParseIntNegative and ParseIntRoundTrip state what it reads |
| Text.StripTrimmed | logkitchen/utils/helpers.py:87 | text with no surrounding white space strips to itself |
| Text.ParseIntDigits | logkitchen/utils/helpers.py:87 | `int()` of plain digits is their value |
| Text.ParseIntNegative | logkitchen/utils/helpers.py:87 | `int()` of a minus sign and digits is the negated value |
| Text.ParseIntRoundTrip | logkitchen/utils/helpers.py:87 | `int(str(i)) == i` for every integer |
| Text.NegativeRoundTrip | logkitchen/utils/helpers.py:87 | `int(str(i)) == i` for every negative integer |
| Text.PositiveRoundTrip | logkitchen/utils/helpers.py:87 | `int(str(n)) == n` for every natural number |
| Text.LastPartSuffix | logkitchen/generators/auditd.py:89 | the last component of a split holds no separator and ends the string |
| Text.JoinEndsWithLast | logkitchen/generators/auditd.py:89 | a join ends with its last part |
| Sorting.LexLeReflexive | logkitchen/generators/verifone_pos.py:236 | Python's string order is reflexive |
| Sorting.LexLeTotal | logkitchen/generators/verifone_pos.py:236 | any two strings are comparable |
| Sorting.LexLeAntisymmetric | logkitchen/generators/verifone_pos.py:236 | strings each <= the other are equal |
| Sorting.LexLeTransitive | logkitchen/generators/verifone_pos.py:236 | the order is transitive |
| Sorting.LexLePrefix | logkitchen/generators/verifone_pos.py:236 | ordered strings have ordered prefixes of the same length |
| Sorting.Insert | logkitchen/generators/verifone_pos.py:236 | inserting adds exactly the one element |
| Sorting.InsertDescending | logkitchen/generators/verifone_pos.py:236 | inserting into a non-increasing list keeps it non-increasing |
| Sorting.SortedDesc | logkitchen/generators/verifone_pos.py:236 | the reference reverse sort is a permutation of its input |
| Sorting.SortedDescIsDescending | logkitchen/generators/verifone_pos.py:236 | the reference reverse sort is non-increasing |
| Sorting.DescendingUnique | logkitchen/generators/verifone_pos.py:236 | two non-increasing arrangements of the same strings are equal, so stability does not show |
| Sorting.ResortUnchanged | logkitchen/generators/verifone_pos.py:236 | sorting an already sorted list in reverse changes nothing |
| Sorting.Swap | logkitchen/generators/verifone_pos.py:236 | swapping two entries exchanges them and keeps the multiset |
| Sorting.SortDescending | logkitchen/generators/verifone_pos.py:236 | `logs.sort(reverse=True)` in place leaves the reference reverse sort of the old contents |
| Sorting.InsertionStep | logkitchen/generators/verifone_pos.py:236 | where the moved entry stops, the sorted prefix grows by one |
| Syslog.TagRoundTrip | logkitchen/generators/syslog.py:51 | the "process[pid]:" token, or "kernel:" without a pid, reads back as the process and pid |
| Syslog.BodyRoundTrip | logkitchen/generators/syslog.py:51 | after the timestamp, a one-word host and tag are recovered by cutting at the first two spaces |
| Syslog.FormatSyslog | logkitchen/generators/syslog.py:47-51 | "timestamp host process[pid]: message"; SyslogRoundTrip states that it reads back |
| Syslog.Render | logkitchen/generators/syslog.py:51 | the line of an entry: the `_format_syslog` form with a pid, "timestamp host kernel: message" without one; KernelShape and RenderInjective state its properties |
| Syslog.SyslogRoundTrip | logkitchen/generators/syslog.py:47-51 | given its timestamp, every well-formed line reads back as its host, process, pid and message |
| Syslog.KernelShape | logkitchen/generators/syslog.py:215 | a kernel line is "ts host kernel: message", with no pid bracket |
| Syslog.RenderInjective | logkitchen/generators/syslog.py:47-51 | distinct well-formed entries with one timestamp print as distinct lines |
| Syslog.SudoMessage | logkitchen/generators/syslog.py:121-124 | both sudo messages start with "user : " and end with "USER=root ; COMMAND=command" |
| Syslog.SudoRefusalInserts | logkitchen/generators/syslog.py:121-124 | the refused message is the granted one with "command not allowed ; " inserted after "user : " |
| Syslog.NetworkEvents | logkitchen/generators/syslog.py:223-228 | four candidate events; only the DHCPACK one names dhclient, the others NetworkManager |
| Syslog.Without | logkitchen/generators/syslog.py:104 | the filtered list holds exactly the users other than the excluded one |
| Syslog.SudoersNonEmpty | logkitchen/generators/syslog.py:104 | the users other than root are not empty, so the sudo choice cannot raise |
| Syslog.WeightsPositive | logkitchen/generators/syslog.py:34-42 | the event weights and the sshd weights have positive totals, so weighted choice never raises |
| Syslog.HexAlphabetIsLowerHex | logkitchen/generators/syslog.py:73 | the publickey alphabet is lowercase hex |
| Syslog.ProcessesWellFormed | logkitchen/generators/syslog.py:96 | every process name a builder uses has no space or bracket, so its line reads back |
| Syslog.SyslogGenerator.constructor | logkitchen/generators/syslog.py:13-18 | the generator sits on its base generator |
| Syslog.SyslogGenerator.Header | logkitchen/generators/syslog.py:55-56 | every builder starts with an instant of the last 7 days, formatted, and a generated host name |
| Syslog.SyslogGenerator.GenerateLog | logkitchen/generators/syslog.py:31-45 | the line is one of the seven kinds, well formed, with the pid range, process and timestamp of its kind |
| Syslog.SyslogGenerator.GenerateLogs | logkitchen/generators/base.py:184-194 | count lines (none for a negative count), each with what generate_log promises of it |
| Syslog.SyslogGenerator.Dispatch | logkitchen/generators/syslog.py:44-45 | the chosen builder's line has that kind's pid range, process and host |
| Syslog.SyslogGenerator.SshEvent | logkitchen/generators/syslog.py:53-96 | an sshd line with pid in [1000, 65535], a public source address and a port in [40000, 65000]; an accepted login names a listed user (a publickey has 43 hex digits); a failed one may name a probe user; a disconnect names only address and port |
| Syslog.SyslogGenerator.SshAccepted | logkitchen/generators/syslog.py:67-76 | a listed user from a public address; the 43 hex digits are drawn whichever message is kept |
| Syslog.SyslogGenerator.SshFailed | logkitchen/generators/syslog.py:78-89 | the user is a listed one or one of the four probe names; the message is one of the five failure forms |
| Syslog.SyslogGenerator.SudoEvent | logkitchen/generators/syslog.py:98-126 | a sudo line with pid in [1000, 65535] from a non-root listed user, running a listed command on a tty in [0, 5] |
| Syslog.SyslogGenerator.SudoDraw | logkitchen/generators/syslog.py:104-124 | the message follows the outcome drawn: granted or refused form for a non-root user and a listed command |
| Syslog.SyslogGenerator.AuthEvent | logkitchen/generators/syslog.py:128-147 | a line from systemd-logind, su or login with one of the six session messages for a listed user; session numbers lie in [1, 999] |
| Syslog.SyslogGenerator.CronEvent | logkitchen/generators/syslog.py:149-172 | a CRON line with one of the three messages for a listed user and a listed command |
| Syslog.SyslogGenerator.SystemdEvent | logkitchen/generators/syslog.py:174-198 | a systemd line with pid in [1, 2000] and one of the seven messages about a listed service |
| Syslog.SyslogGenerator.KernelValues | logkitchen/generators/syslog.py:206-210 | OUT from the four interfaces and IN from the two, two MAC addresses, private SRC and DST except a public UFW source, DPT in [1024, 65535] and a USB device number in [2, 10] |
| Syslog.SyslogGenerator.KernelEvent | logkitchen/generators/syslog.py:200-215 | a kernel line without pid whose message is one of the five candidates built from such drawn values |
| Syslog.SyslogGenerator.NetworkEvent | logkitchen/generators/syslog.py:217-232 | a dhclient or NetworkManager line; the process is dhclient exactly when the message is a DHCPACK |
| Auditd.WeightsPositive | logkitchen/generators/auditd.py:49-56 | the six event weights have a positive total, so weighted choice never raises |
| Auditd.EpochSeconds | logkitchen/generators/auditd.py:64 | `int(dt.timestamp())` truncates toward zero: the whole seconds of the instant, rounded toward zero for instants before the epoch |
| Auditd.MillisWidth | logkitchen/generators/auditd.py:65-68 | millis below 1000 print as exactly three digits |
| Auditd.AuditStampRoundTrip | logkitchen/generators/auditd.py:68 | every "seconds.mmm" stamp reads back as its seconds and millis |
| Auditd.AuditStampChars | logkitchen/generators/auditd.py:68 | a stamp holds no space and no colon |
| Auditd.IntStrHasNoSpaceOrColon | logkitchen/generators/auditd.py:101 | a printed number holds no space and no colon |
| Auditd.LeadingTokensOfRecord | logkitchen/generators/auditd.py:99-123 | the first two tokens of a record are its type token and its header |
| Auditd.AuditStamp | logkitchen/generators/auditd.py:64-68 | "epoch.mmm" from the epoch seconds and the zero-filled milliseconds; AuditStampRoundTrip states that it reads back |
| Auditd.AuditHeader | logkitchen/generators/auditd.py:101 | "msg=audit(stamp:serial):"; AuditHeaderRoundTrip states that it reads back |
| Auditd.AuditHeaderRoundTrip | logkitchen/generators/auditd.py:101 | "msg=audit(stamp:serial):" reads back as the stamp and the sequence number |
| Auditd.AuditPrefixRoundTrip | logkitchen/generators/auditd.py:99-123 | every record reads back as its type, stamp and sequence number, whatever its fields |
| Auditd.SyscallNumbers | logkitchen/generators/auditd.py:37-42 | the numbers of the system call table, in order |
| Auditd.ExecutablePaths | logkitchen/generators/auditd.py:20-34 | the executables' paths, in table order |
| Auditd.CommIsBaseName | logkitchen/generators/auditd.py:88-89 | comm holds no slash and is the tail of exe |
| Auditd.ArgParts | logkitchen/generators/auditd.py:135-137 | argument i is printed as a{i}="arg", one part per argument, in order |
| Auditd.ArgumentListsDistinct | logkitchen/generators/auditd.py:20-34 | every executable's argument list has at least two entries and no repeats |
| Auditd.SshTerminal | logkitchen/generators/auditd.py:153-154 | of the USER_AUTH terminals, only "ssh" contains "ssh" |
| Auditd.NoSshIn | logkitchen/generators/auditd.py:154 | text with no two consecutive 's' does not contain "ssh" |
| Auditd.LoginIdsAgree | logkitchen/generators/auditd.py:228-241 | a LOGIN record's uid and auid fields carry the same number and old-ses is unset |
| Auditd.TypeNameHasNoSpace | logkitchen/generators/auditd.py:100 | every type token is one word |
| Auditd.RaiseSerials | logkitchen/generators/auditd.py:66 | appending a record numbered above all earlier ones keeps the sequence numbers increasing |
| Auditd.AuditdGenerator.constructor | logkitchen/generators/auditd.py:14-17 | the sequence counter starts at a value in [100, 10000], with one draw |
| Auditd.AuditdGenerator.StampChars | logkitchen/generators/auditd.py:63-68 | a stamp of the last 7 days is one token without a colon |
| Auditd.AuditdGenerator.AuditTimestamp | logkitchen/generators/auditd.py:61-68 | the counter rises by 1 to 10 and the new value is the record's sequence number |
| Auditd.AuditdGenerator.GenerateLog | logkitchen/generators/auditd.py:47-59 | the record reads back as its kind's type, its stamp and the raised counter |
| Auditd.AuditdGenerator.GenerateLogs | logkitchen/generators/base.py:184-194 | count records, each reading back as its prefix; their sequence numbers strictly increase, each step by 1 to 10, and the last is the counter |
| Auditd.AuditdGenerator.CollectRecords | logkitchen/generators/base.py:194 | the loop's n records form a batch: each reads back as its prefix, the numbers rise above the old counter and the last is the new counter |
| Auditd.AuditdGenerator.BatchGrow | logkitchen/generators/auditd.py:66 | a record numbered 1 to 10 above the counter keeps a batch a batch |
| Auditd.AuditdGenerator.RecordsGrow | logkitchen/generators/base.py:194 | appending one record keeps every earlier record read back as its prefix |
| Auditd.AuditdGenerator.BatchReadsBack | logkitchen/generators/auditd.py:99-123 | every record of a batch reads back as its prefix |
| Auditd.AuditdGenerator.BatchStep | logkitchen/generators/base.py:194 | one generate_log call of the batch yields a record numbered with the raised counter |
| Auditd.AuditdGenerator.Dispatch | logkitchen/generators/auditd.py:58-59 | the chosen builder writes its type, stamp, sequence number and fields |
| Auditd.AuditdGenerator.SyscallEvent | logkitchen/generators/auditd.py:70-123 | a SYSCALL record whose fields are drawn from the tables and ranges, with exit 0 exactly on success, auid = euid = uid, egid = gid and comm the base name of exe |
| Auditd.AuditdGenerator.SyscallDraw | logkitchen/generators/auditd.py:74-97 | the SYSCALL fields keep those correlations and ranges |
| Auditd.AuditdGenerator.SyscallOutcome | logkitchen/generators/auditd.py:74-78 | exit is 0 exactly when success is "yes"; a failure exits with 1, 13 or 2 |
| Auditd.AuditdGenerator.SyscallIds | logkitchen/generators/auditd.py:80-86 | uid and gid are listed ids; pid in [1000, 65535]; ppid in [1, 1000] |
| Auditd.AuditdGenerator.SyscallExe | logkitchen/generators/auditd.py:88-89 | exe comes from the table and comm is its last path component |
| Auditd.SyscallArg | logkitchen/generators/auditd.py:92 | the `:x` text of a draw reduced to a 32-bit value: one to eight lowercase hex digits |
| Auditd.Word32Hex | logkitchen/generators/auditd.py:92-95 | a value in [0, 0xffffffff] prints with one to eight hex digits |
| Auditd.AuditdGenerator.SyscallArgDraw | logkitchen/generators/auditd.py:92 | one argument: the 32-bit hex text of the next draw, one draw consumed |
| Auditd.AuditdGenerator.SyscallArgs | logkitchen/generators/auditd.py:92-95 | a0 to a3 are the 32-bit hex texts of the next four draws in order, each one to eight lowercase hex digits |
| Auditd.AuditdGenerator.ExecveEvent | logkitchen/generators/auditd.py:125-146 | an EXECVE record of one to three distinct arguments of the chosen executable, argc their number |
| Auditd.AuditdGenerator.ExecveDraw | logkitchen/generators/auditd.py:129-130 | the arguments are a sample without repetition from the executable's list, at most three |
| Auditd.AuditdGenerator.FormatArgs | logkitchen/generators/auditd.py:135-137 | the argument loop produces exactly the numbered parts |
| Auditd.AuditdGenerator.UserAuthEvent | logkitchen/generators/auditd.py:148-170 | a USER_AUTH record that carries an address exactly on the ssh terminal, a public one, and '?' otherwise |
| Auditd.AuditdGenerator.UserAuthDraw | logkitchen/generators/auditd.py:152-159 | the terminal is listed; a public address is drawn exactly for ssh; the user is non-empty |
| Auditd.AuditdGenerator.UserAuthOutcome | logkitchen/generators/auditd.py:156-166 | res is success or failed; exe is listed; uid 0 or 1000; auid in [1000, 2000]; pid in [1000, 65535] |
| Auditd.AuditdGenerator.UserCmdEvent | logkitchen/generators/auditd.py:172-199 | a USER_CMD record of a listed command on pts/0 to pts/5 with ids in their ranges |
| Auditd.AuditdGenerator.UserCmdDraw | logkitchen/generators/auditd.py:176-188 | the command is listed, the tty in [0, 5], uid and auid in [1000, 2000] |
| Auditd.AuditdGenerator.CredEvent | logkitchen/generators/auditd.py:201-221 | a CRED_ACQ, CRED_DISP or CRED_REFR record with listed executable, terminal and result |
| Auditd.AuditdGenerator.CredDraw | logkitchen/generators/auditd.py:205-210 | the type, executable, terminal (pts/0 to pts/5, ssh, :0) and result come from their lists |
| Auditd.AuditdGenerator.LoginEvent | logkitchen/generators/auditd.py:223-246 | a LOGIN record whose auid equals its uid and whose old-ses is unset |
| Auditd.AuditdGenerator.LoginDraw | logkitchen/generators/auditd.py:227-231 | uid in [1000, 2000], auid = uid, tty pts/0 to pts/5 or /dev/tty1, session in [1, 999] |
| Auditd.AuditdGenerator.OldAuid | logkitchen/generators/auditd.py:229 | old-auid is "unset" or the text of a number in [1000, 2000] |
| Windows.EventWeightsPositive | logkitchen/generators/windows_security.py:61-74 | the twelve event weights have a positive total, so weighted choice never raises |
| Windows.EventIdCases | logkitchen/generators/windows_security.py:80-95 | every weighted event id has a builder: the lookup never raises KeyError |
| Windows.PrefixesPlain | logkitchen/generators/windows_security.py:18 | no computer prefix holds a dash or a space |
| Windows.PaddedNumber | logkitchen/generators/windows_security.py:111 | a number in [1, 100] zero-fills to exactly three digits that denote it |
| Windows.ComputerNameRoundTrip | logkitchen/generators/windows_security.py:108-111 | "PREFIX-ddd" reads back as the prefix and the number, and is four characters longer than the prefix |
| Windows.ComputerNameHasNoSpace | logkitchen/generators/windows_security.py:108-111 | a computer name is one token |
| Windows.WindowsEvent | logkitchen/generators/windows_security.py:113-123 | "EventID=id Level=lvl Computer=c TimeGenerated=ts " and the "Key: Value" parts joined by "; "; FieldParts and WindowsHeaderRoundTrip state its properties |
| Windows.FieldParts | logkitchen/generators/windows_security.py:117-119 | the field loop gives one "Key: Value" per field, in insertion order |
| Windows.WindowsHeaderRoundTrip | logkitchen/generators/windows_security.py:123 | a line whose level and computer have no space reads back as its event id, level and computer |
| Windows.LevelsHaveNoSpace | logkitchen/generators/windows_security.py:163 | the levels written, Information and Warning, are one word each |
| Windows.LogonIdShape | logkitchen/generators/windows_security.py:147 | a logon id from [0x100000, 0xFFFFFF] prints as "0x" and six upper-case hex digits |
| Windows.LogonTypeText | logkitchen/generators/windows_security.py:140 | "code (Name)" for a code of the logon-type table; LogonTypeRoundTrip states that it reads back |
| Windows.LogonTypeRoundTrip | logkitchen/generators/windows_security.py:28-37 | every "code (Name)" Logon_Type value reads back as its code, with the name belonging to that code |
| Windows.BatchLogon | logkitchen/generators/windows_security.py:137-140 | batch logons, code 4, are drawn by the 4624 builder and are written "4 (Batch)" |
| Windows.LogonTypesKnown | logkitchen/generators/windows_security.py:132-140 | every logon type any builder draws has a name, so the lookup never raises KeyError |
| Windows.StatusIdentifiesReason | logkitchen/generators/windows_security.py:185-194 | the Status code alone determines the failure reason |
| Windows.SubStatusSet | logkitchen/generators/windows_security.py:185-192 | Sub_Status differs from 0x0 exactly for a bad password and a locked-out account |
| Windows.FailureCodesNonZero | logkitchen/generators/windows_security.py:329 | no Kerberos or NTLM failure code reads as the success code 0x0 |
| Windows.NatStrHasNoDash | logkitchen/generators/windows_security.py:276 | a printed number holds no dash |
| Windows.SidNumberLengths | logkitchen/generators/windows_security.py:276 | the four SID numbers print with 10, 6, 6 and 4 digits |
| Windows.SidNumbersSplit | logkitchen/generators/windows_security.py:276 | four dash-free numbers joined by dashes split back into the four |
| Windows.SidSplit | logkitchen/generators/windows_security.py:276 | splitting a SID on '-' gives S, 1, 5, 21 and the four numbers |
| Windows.SidPrefix | logkitchen/generators/windows_security.py:276 | the literal "S-1-5-21-" is the four fixed parts joined by dashes |
| Windows.SidShape | logkitchen/generators/windows_security.py:276 | every generated SID has the form S-1-5-21-&lt;10 digits&gt;-&lt;6&gt;-&lt;6&gt;-&lt;4&gt; |
| Windows.SuccessfulLogonTypeField | logkitchen/generators/windows_security.py:156 | the Logon_Type field of a 4624 event reads back as the drawn code |
| Windows.FailedLogonTypeField | logkitchen/generators/windows_security.py:204 | the Logon_Type field of a 4625 event reads back as the drawn code |
| Windows.LogoffTypeField | logkitchen/generators/windows_security.py:225 | the Logon_Type field of a 4634 event reads back as the drawn code |
| Windows.PrivilegesField | logkitchen/generators/windows_security.py:251-257 | the Privileges field of a 4672 event is 3 to 6 distinct listed privilege names joined by ", " |
| Windows.PrivilegesDistinct | logkitchen/generators/windows_security.py:240-249 | the privilege list has no repeats |
| Windows.WindowsSecurityGenerator.constructor | logkitchen/generators/windows_security.py:13-14 | the generator sits on its base generator |
| Windows.WindowsSecurityGenerator.GenerateLogs | logkitchen/generators/base.py:184-194 | count lines (none for a negative count), each a consistent event written with its id, level and computer |
| Windows.WindowsSecurityGenerator.GenerateLog | logkitchen/generators/windows_security.py:76-95 | the event id is a weighted one; the event is consistent; the line reads back as the id, the level for that id and the computer |
| Windows.WindowsSecurityGenerator.DispatchLow | logkitchen/generators/windows_security.py:80-95 | the builder for 4624 to 4732 yields an event of that id, consistent and rendered |
| Windows.WindowsSecurityGenerator.DispatchHigh | logkitchen/generators/windows_security.py:80-95 | the builder for 4740 to 5157 yields an event of that id, consistent and rendered |
| Windows.WindowsSecurityGenerator.FormatEvent | logkitchen/generators/windows_security.py:113-123 | the loop, the "; " join and the header make the rendered line |
| Windows.WindowsSecurityGenerator.Header | logkitchen/generators/windows_security.py:97-100 | every builder starts with an instant of the last 7 days, formatted, and a valid computer name |
| Windows.WindowsSecurityGenerator.ComputerDraw | logkitchen/generators/windows_security.py:108-111 | the computer has a listed prefix and a number in [1, 100] |
| Windows.WindowsSecurityGenerator.DomainUser | logkitchen/generators/windows_security.py:102-106 | the domain and the user come from their lists |
| Windows.WindowsSecurityGenerator.SuccessfulLogonEvent | logkitchen/generators/windows_security.py:125-163 | a 4624 event: listed account; subject SYSTEM, LOCAL SERVICE or the user; ids in their ranges; logon type 2, 3, 4, 5 or 10; port in [49152, 65535]; a listed package |
| Windows.WindowsSecurityGenerator.SuccessfulLogonDraw | logkitchen/generators/windows_security.py:129-160 | the 4624 fields keep those ranges and lists |
| Windows.WindowsSecurityGenerator.LogonSource | logkitchen/generators/windows_security.py:143-144 | the source address matches the private flag drawn; the workstation is '-' or a valid computer |
| Windows.WindowsSecurityGenerator.FailedLogonEvent | logkitchen/generators/windows_security.py:165-210 | a 4625 event whose Status and Sub_Status are the pair of its failure reason, from a public address, with a listed or probe user |
| Windows.WindowsSecurityGenerator.FailedLogonDraw | logkitchen/generators/windows_security.py:169-207 | the 4625 fields keep those correlations |
| Windows.WindowsSecurityGenerator.LogoffEvent | logkitchen/generators/windows_security.py:212-228 | a 4634 event of a listed account, logon type 2, 3 or 10, logon id in range |
| Windows.WindowsSecurityGenerator.SpecialPrivilegesEvent | logkitchen/generators/windows_security.py:230-260 | a 4672 event with 3 to 6 distinct privileges from the list |
| Windows.WindowsSecurityGenerator.SpecialPrivilegesDraw | logkitchen/generators/windows_security.py:234-257 | the privileges are a sample without repetition of 3 to 6 of the eight |
| Windows.WindowsSecurityGenerator.UserCreatedEvent | logkitchen/generators/windows_security.py:262-279 | a 4720 event by a listed creator, with a non-empty new name and a SID in range |
| Windows.WindowsSecurityGenerator.UserCreatedDraw | logkitchen/generators/windows_security.py:266-276 | the creator is listed, the names are non-empty and the SID numbers lie in their ranges |
| Windows.WindowsSecurityGenerator.SidDraw | logkitchen/generators/windows_security.py:276 | the four draws lie in [10^9, 10^10 - 1], [10^5, 10^6 - 1] twice and [1000, 9999] |
| Windows.WindowsSecurityGenerator.MemberAddedEvent | logkitchen/generators/windows_security.py:281-298 | a 4732 event by Administrator or admin adding a listed account to a listed group |
| Windows.WindowsSecurityGenerator.AccountLockedEvent | logkitchen/generators/windows_security.py:300-314 | a 4740 event, the one written at level Warning, with a valid caller computer |
| Windows.WindowsSecurityGenerator.KerberosTgtEvent | logkitchen/generators/windows_security.py:316-333 | a 4768 event from a private address; the result is 0x0 exactly on success, a listed failure code otherwise |
| Windows.WindowsSecurityGenerator.KerberosTgtDraw | logkitchen/generators/windows_security.py:320-330 | the 4768 fields keep that correlation and a listed encryption type |
| Windows.WindowsSecurityGenerator.NtlmAuthEvent | logkitchen/generators/windows_security.py:335-350 | a 4776 event whose error code is 0x0 exactly on success; the drawn domain is not written |
| Windows.WindowsSecurityGenerator.NtlmAuthDraw | logkitchen/generators/windows_security.py:339-347 | the 4776 fields keep that correlation and a valid workstation |
| Windows.WindowsSecurityGenerator.ShareAccessEvent | logkitchen/generators/windows_security.py:352-370 | a 5140 event from a private address and port in [49152, 65535] to a listed share with a listed mask |
| Windows.WindowsSecurityGenerator.ShareAccessDraw | logkitchen/generators/windows_security.py:356-367 | the 5140 fields keep those ranges and lists |
| Windows.WindowsSecurityGenerator.FirewallAllowedEvent | logkitchen/generators/windows_security.py:372-395 | a 5156 event: listed application and direction, private source, destination matching its private flag, well-known port, TCP or UDP |
| Windows.WindowsSecurityGenerator.FirewallAllowedDraw | logkitchen/generators/windows_security.py:377-392 | the 5156 fields keep those ranges and lists |
| Windows.WindowsSecurityGenerator.FirewallBlockedEvent | logkitchen/generators/windows_security.py:397-414 | a 5157 event from a public source to a private destination on a well-known port, TCP or UDP |
| CefFormat.Escape | logkitchen/generators/cef_firewall.py:101 | backslash doubled first, then pipe escaped; UnescapeRoundTrip and EscapeBarePipeFree state what it guarantees |
| CefFormat.CefLine | logkitchen/generators/cef_firewall.py:95-118 | "CEF:0", the five header fields and the extensions joined by pipes; CefLineSegments and CefLineShape state its shape |
| CefFormat.EscapeCons | logkitchen/generators/cef_firewall.py:101 | the two replacements act character by character: a backslash doubles, a pipe gains a backslash |
| CefFormat.UnescapeRoundTrip | logkitchen/generators/cef_firewall.py:101 | unescaping recovers every escaped value |
| CefFormat.EscapeBarePipeFree | logkitchen/generators/cef_firewall.py:101 | an escaped value has no unescaped pipe |
| CefFormat.BarePipeFreeConcat | logkitchen/generators/cef_firewall.py:102 | text without bare pipes stays so when concatenated |
| CefFormat.PlainBarePipeFree | logkitchen/generators/cef_firewall.py:107-116 | text with no pipe and no backslash has no bare pipe |
| CefFormat.PlainConcat | logkitchen/generators/cef_firewall.py:102 | concatenating plain texts gives plain text |
| CefFormat.DigitsArePlain | logkitchen/generators/cef_firewall.py:114 | digits are plain |
| CefFormat.IntStrPlain | logkitchen/generators/cef_firewall.py:114 | the severity, as printed, is plain |
| CefFormat.Prepend | logkitchen/generators/cef_firewall.py:107-118 | a prefix attaches to the first segment only |
| CefFormat.SplitBare | logkitchen/generators/cef_firewall.py:118 | splitting at unescaped pipes gives at least one segment |
| CefFormat.SplitBareSegment | logkitchen/generators/cef_firewall.py:118 | a segment without bare pipes splits off whole before a separator |
| CefFormat.SplitBareWhole | logkitchen/generators/cef_firewall.py:118 | text without bare pipes is one segment |
| CefFormat.SplitBareJoin | logkitchen/generators/cef_firewall.py:118 | joining segments without bare pipes with "\|" and splitting again gives them back |
| CefFormat.ExtParts | logkitchen/generators/cef_firewall.py:98-102 | one "key=escaped value" part per extension, in insertion order |
| CefFormat.Keys | logkitchen/generators/cef_firewall.py:99 | the extension keys, in insertion order |
| CefFormat.Pairs | logkitchen/generators/cef_firewall.py:179-192 | extensions built from keys beside values pair them in order |
| CefFormat.KeysOfPairs | logkitchen/generators/cef_firewall.py:179-192 | the keys of those extensions are the keys given |
| CefFormat.KeysConcat | logkitchen/generators/cef_firewall.py:194-203 | keys inserted later follow the earlier ones |
| CefFormat.JoinBarePipeFree | logkitchen/generators/cef_firewall.py:104 | a space join of parts without bare pipes has none |
| CefFormat.ExtensionsBarePipeFree | logkitchen/generators/cef_firewall.py:98-104 | with plain keys, the extension string has no bare pipe, whatever the values |
| CefFormat.CefLineSegments | logkitchen/generators/cef_firewall.py:86-118 | with plain header fields and keys, the line splits back into CEF:0, vendor, product, version, class id, name, severity and the extension string |
| CefFormat.CefLineShape | logkitchen/generators/cef_firewall.py:86-118 | such a line has exactly eight segments, the first CEF:0 and the fifth the class id |
| Cef.DevicePlain | logkitchen/generators/cef_firewall.py:18-24 | no vendor, product or version holds a pipe or a backslash |
| Cef.DeviceTablePlain | logkitchen/generators/cef_firewall.py:18-24 | every entry of the vendor table is plain |
| Cef.DistinctAppend | logkitchen/generators/cef_firewall.py:179-203 | appended keys stay distinct exactly when both parts are distinct and share none |
| Cef.OptionalKeys | logkitchen/generators/cef_firewall.py:194-203 | leaving out optional groups of keys keeps them distinct and among the full set |
| Cef.FormatCef | logkitchen/generators/cef_firewall.py:86-118 | the loop, the space join and the pipe join make the CEF line |
| Cef.TrafficCoreValues | logkitchen/generators/cef_firewall.py:179-192 | one value per core TRAFFIC key |
| Cef.TrafficKeysDistinct | logkitchen/generators/cef_firewall.py:179-203 | the TRAFFIC keys, optional ones included, are distinct |
| Cef.TrafficKeysPlain | logkitchen/generators/cef_firewall.py:179-203 | the TRAFFIC keys are plain |
| Cef.TrafficKeys | logkitchen/generators/cef_firewall.py:179-203 | no TRAFFIC key is inserted twice, whichever optional keys are present |
| Cef.ThreatCoreValues | logkitchen/generators/cef_firewall.py:257-271 | one value per core THREAT key |
| Cef.ThreatKeysDistinct | logkitchen/generators/cef_firewall.py:257-287 | the THREAT keys, optional ones included, are distinct |
| Cef.ThreatKeysPlain | logkitchen/generators/cef_firewall.py:257-287 | the THREAT keys are plain |
| Cef.ThreatKeys | logkitchen/generators/cef_firewall.py:257-287 | no THREAT key is inserted twice, whichever optional keys are present |
| Cef.HexDigitsLowerHex | logkitchen/generators/cef_firewall.py:287 | the hash alphabet is lowercase hex |
| Cef.ThreatNamePlain | logkitchen/generators/cef_firewall.py:218 | "threat-category" is plain for every category |
| Cef.SystemKeyNames | logkitchen/generators/cef_firewall.py:318-341 | the SYSTEM keys are distinct and plain |
| Cef.SystemKeys | logkitchen/generators/cef_firewall.py:318-341 | no SYSTEM key is inserted twice, with or without the admin keys |
| Cef.SystemNamesPlainLow | logkitchen/generators/cef_firewall.py:300-304 | the first four SYSTEM names are plain |
| Cef.SystemNamesPlainHigh | logkitchen/generators/cef_firewall.py:305-308 | the last four SYSTEM names are plain |
| Cef.SystemNamePlain | logkitchen/generators/cef_firewall.py:300-311 | every SYSTEM event name is plain |
| Cef.VerdictNamePlain | logkitchen/generators/cef_firewall.py:129-138 | the TRAFFIC names are plain |
| Cef.TrafficSegments | logkitchen/generators/cef_firewall.py:205 | a TRAFFIC line has eight segments, the first CEF:0 and the fifth TRAFFIC |
| Cef.ThreatSegments | logkitchen/generators/cef_firewall.py:289 | a THREAT line has eight segments, the first CEF:0 and the fifth THREAT |
| Cef.SystemSegments | logkitchen/generators/cef_firewall.py:343 | a SYSTEM line has eight segments, the first CEF:0 and the fifth SYSTEM |
| Cef.CefFirewallGenerator.constructor | logkitchen/generators/cef_firewall.py:14-15 | the generator sits on its base generator |
| Cef.CefFirewallGenerator.GenerateLogs | logkitchen/generators/base.py:184-194 | count lines (none for a negative count), each with eight segments and its class in the fifth |
| Cef.CefFirewallGenerator.GenerateLog | logkitchen/generators/cef_firewall.py:75-84 | the line is TRAFFIC, THREAT or SYSTEM and splits into eight segments, CEF:0 first and the class fifth |
| Cef.CefFirewallGenerator.DeviceDraw | logkitchen/generators/cef_firewall.py:123-124 | vendor, product and version come from one table entry |
| Cef.CefFirewallGenerator.Timestamp | logkitchen/generators/cef_firewall.py:175-176 | rt is an instant of the last 7 days, formatted |
| Cef.CefFirewallGenerator.TrafficEvent | logkitchen/generators/cef_firewall.py:120-205 | a TRAFFIC line of a consistent record: verdict, endpoints, protocol and ports agree, counters in range |
| Cef.CefFirewallGenerator.TrafficDraw | logkitchen/generators/cef_firewall.py:122-192 | every TRAFFIC field but the optional ones keeps those correlations |
| Cef.CefFirewallGenerator.TrafficCounters | logkitchen/generators/cef_firewall.py:171-190 | byte counts in [100, 1000000], direction "0" or "1", connection id in [1, 999999] |
| Cef.CefFirewallGenerator.TrafficVerdict | logkitchen/generators/cef_firewall.py:127-138 | allowed traffic has severity 1 to 3, an allow action and the name traffic-allowed; denied traffic 5 to 7, a deny action, traffic-denied |
| Cef.CefFirewallGenerator.TrafficEndpoints | logkitchen/generators/cef_firewall.py:141-148 | an internal source is private and talks to a private or public host; an external source is public and talks to a private host |
| Cef.CefFirewallGenerator.TrafficPorts | logkitchen/generators/cef_firewall.py:151-168 | TCP and UDP get an ephemeral source port and a destination that is the service's port when the protocols match, a well-known port otherwise; other protocols get port 0 |
| Cef.CefFirewallGenerator.TrafficExtras | logkitchen/generators/cef_firewall.py:194-203 | the optional app and zones are appended after the other keys, from their lists |
| Cef.CefFirewallGenerator.ThreatEvent | logkitchen/generators/cef_firewall.py:207-289 | a THREAT line of a consistent record: URL categories always carry a request; malware and virus exactly carry a file and a 64-digit hash |
| Cef.CefFirewallGenerator.ThreatDraw | logkitchen/generators/cef_firewall.py:210-271 | threat id in [10000, 99999], severity 7 to 10, public source, private destination, listed name and action |
| Cef.CefFirewallGenerator.ThreatPorts | logkitchen/generators/cef_firewall.py:226-234 | ICMP has port 0 both ways; TCP and UDP a well-known destination and an ephemeral source |
| Cef.CefFirewallGenerator.RequestDraw | logkitchen/generators/cef_firewall.py:274-281 | a category containing "url" always gets a request, and a request is a listed URL |
| Cef.CefFirewallGenerator.FileDraw | logkitchen/generators/cef_firewall.py:284-287 | a file name and a 64-digit lowercase hash are added exactly for malware and virus categories |
| Cef.CefFirewallGenerator.SystemEvent | logkitchen/generators/cef_firewall.py:291-343 | a SYSTEM line whose name and severity belong to its event id and which names an admin exactly on login, logout and config change |
| Cef.CefFirewallGenerator.SystemDraw | logkitchen/generators/cef_firewall.py:294-339 | private dvc, host fw-1 to fw-100, days in [1, 30], percent in [85, 95] |
| Cef.CefFirewallGenerator.AdminDraw | logkitchen/generators/cef_firewall.py:325-327 | suser and src are drawn exactly for the admin events, a listed admin from a private address |
| Config.KeyPath | logkitchen/config/config_manager.py:60 | splitting a dotted path always yields at least one key |
| Config.Put | logkitchen/config/config_manager.py:107-117 | a successful update leaves a mapping at the top of the document |
| Config.LookupAppend | logkitchen/config/config_manager.py:60-69 | following p + q is following q from wherever p leads, and nothing when p leads nowhere |
| Config.LookupStep | logkitchen/config/config_manager.py:63-65 | one step of get: a path into a mapping continues from the child under its first key |
| Config.EmptyLookup | logkitchen/config/config_manager.py:112-113 | in a freshly created empty mapping only the empty path finds anything |
| Config.PutSucceedsIffOpen | logkitchen/config/config_manager.py:107-117 | update raises TypeError exactly when some value already on the path, before the last key, is not a mapping (both directions) |
| Config.PutThenLookup | logkitchen/config/config_manager.py:99-117 | after update(p, x), get(p) returns x |
| Config.PutFrame | logkitchen/config/config_manager.py:99-117 | after update(p, x), any path that parts from p reads the same as before |
| Config.PutPrefix | logkitchen/config/config_manager.py:111-114 | every proper prefix of p now leads to a mapping whose keys are its old keys plus the next key of p |
| Config.PutBelow | logkitchen/config/config_manager.py:117 | paths that extend p read from the new value x |
| Config.ConfigManager.constructor | logkitchen/config/config_manager.py:14-22 | the path is the given one or the default, and a false document loads as an empty mapping |
| Config.ConfigManager.Get | logkitchen/config/config_manager.py:49-69 | the value the dotted path reaches through nested mappings, or the default when it reaches nothing |
| Config.ConfigManager.GetSection | logkitchen/config/config_manager.py:71-81 | the value at the path, or an empty mapping |
| Config.ConfigManager.Update | logkitchen/config/config_manager.py:99-117 | succeeds exactly when the reference update does; the document becomes its result, or stays unchanged on TypeError; the path is unchanged |
| Config.Registry.constructor | logkitchen/config/config_manager.py:124 | no manager exists at start |
| Config.Registry.GetConfig | logkitchen/config/config_manager.py:127-142 | the first call builds a new manager from its arguments; every later call returns that same manager and ignores its arguments |
| Helpers.ValidateCount | logkitchen/utils/helpers.py:71-94 | int(count) exactly when it parses and lies in [1, max_count]; otherwise the default |
| Helpers.ValidCountAccepted | logkitchen/utils/helpers.py:86-92 | a count in range, written in decimal, is returned as itself |
| Helpers.OutOfRangeCountRejected | logkitchen/utils/helpers.py:88-91 | a count of zero or less, or above the maximum, gives the default |
| Helpers.UnparsableCountRejected | logkitchen/utils/helpers.py:93-94 | text int() rejects gives the default |
| Helpers.ValidateSeed | logkitchen/utils/helpers.py:97-113 | no seed for missing or empty text or none/null/random in any case; otherwise int(seed), or no seed when it does not parse |
| Helpers.SeedRoundTrip | logkitchen/utils/helpers.py:110-111 | every integer written in decimal is accepted as itself |
| Helpers.NotRandomWord | logkitchen/utils/helpers.py:107 | text beginning with a sign or a digit is never one of the unseeded words |
| Helpers.ZeroSeedUnseeded | logkitchen/generators/base.py:23-25 | the seed "0" is accepted as 0, yet like no seed at all it leaves the stream unseeded |
| Helpers.PathJoin | logkitchen/utils/helpers.py:50 | the joined path ends with the file name |
| Helpers.OutputFilename | logkitchen/utils/helpers.py:26-50 | the output path ends with the file name, and so with the extension |
| Helpers.PathJoinEndsWith | logkitchen/utils/helpers.py:50 | joining keeps any suffix of the file name at the end of the path |
| Helpers.OutputFilenameShape | logkitchen/utils/helpers.py:44-50 | the path is the directory, a slash when it lacks one, then type[_stamp]extension, and its last component is that name |
| Helpers.LastPartAfterSlash | logkitchen/utils/helpers.py:50 | after a trailing slash, a slash-free name is the path's last component |
| Verifone.NatStrBound | logkitchen/generators/verifone_pos.py:57 | a number below 10^k prints in at most k digits, so the zero-filled fields keep their width |
| Verifone.TwoLength | logkitchen/generators/verifone_pos.py:57 | each two-digit field of the stamp is exactly two characters |
| Verifone.WholeSecondsLength | logkitchen/generators/verifone_pos.py:57 | "%Y-%m-%d %H:%M:%S" of a four-digit year is 19 characters |
| Verifone.DigitsValueSplit | logkitchen/generators/verifone_pos.py:57 | a digit string cut at k reads as its head shifted past the tail, plus the tail |
| Verifone.DigitsValueBound | logkitchen/generators/verifone_pos.py:57 | k digits read as a number below 10^k |
| Verifone.MicrosDigits | logkitchen/generators/verifone_pos.py:57 | "%f" is six digits that read back as the microseconds |
| Verifone.SixDigitsSplit | logkitchen/generators/verifone_pos.py:57 | six digits are their first three times 1000 plus their last three |
| Verifone.MillisDigits | logkitchen/generators/verifone_pos.py:57 | the first three "%f" digits are the milliseconds |
| Verifone.CutStamp | logkitchen/generators/verifone_pos.py:57 | dropping three characters from 19 characters, a dot and six digits keeps the 19, the dot and the first three digits |
| Verifone.VerifoneTimestamp | logkitchen/generators/verifone_pos.py:55-57 | strftime('%Y-%m-%d %H:%M:%S.%f') without its last three characters; TimestampShape states its shape |
| Verifone.TimestampShape | logkitchen/generators/verifone_pos.py:55-57 | the stamp is 23 characters: the whole seconds, a dot, then three digits equal to the milliseconds |
| Verifone.StoreAddressPrivate | logkitchen/generators/verifone_pos.py:20-23 | every store address lies in 172.16.0.0/12, a block of RFC 1918 |
| Verifone.StoreIdRange | logkitchen/generators/verifone_pos.py:17 | store ids run from 100 to 799 |
| Verifone.RegisterIdRange | logkitchen/generators/verifone_pos.py:49 | register ids run from 0 to 9 |
| Verifone.RemoteIpRange | logkitchen/generators/verifone_pos.py:26-28 | every remote address is 192.168.31.[100..209], in 192.168.0.0/16 of RFC 1918 |
| Verifone.Exclude | logkitchen/generators/verifone_pos.py:116 | the list comprehension keeps exactly the entries not in the excluded list (both directions) |
| Verifone.UserApiActionsNonEmpty | logkitchen/generators/verifone_pos.py:116 | the actions left after removing the authentication actions are not empty, so the choice cannot fail |
| Verifone.AllObeyMember | logkitchen/generators/verifone_pos.py:31-46 | an entry of a table that obeys a rule obeys it |
| Verifone.AllObeyFrom | logkitchen/generators/verifone_pos.py:31-46 | a table whose every entry obeys a rule satisfies the table predicate |
| Verifone.SourceGoodTables | logkitchen/generators/verifone_pos.py:31-49 | the source's tables, with the guarantees the read-back needs |
| Verifone.SourceTablesOk | logkitchen/generators/verifone_pos.py:31-46 | the user names, actions, failure reasons and SSH errors have space-free words and non-empty reasons |
| Verifone.NextFieldAt | logkitchen/generators/verifone_pos.py:82-87 | reading a field up to " - " returns the field and the rest when the field has no " - " |
| Verifone.Render | logkitchen/generators/verifone_pos.py:82-87 | "stamp     - Store id - ip - body" for every kind; RenderReadsBack states that it reads back |
| Verifone.LineRoundTrip | logkitchen/generators/verifone_pos.py:148-151 | a line with a 23-character stamp reads back as its stamp, store id, store address and body |
| Verifone.RemoteRoundTrip | logkitchen/generators/verifone_pos.py:86 | the "REMOTE IP# ..." part reads back as its address and message |
| Verifone.RouteRoundTrip | logkitchen/generators/verifone_pos.py:85-86 | the "HTTP REQUEST - Register ID# ..." part reads back as its register, address and message |
| Verifone.StatusRoundTrip | logkitchen/generators/verifone_pos.py:69-73 | PASSED and FAILED read back as themselves and have no space |
| Verifone.TailRoundTrip | logkitchen/generators/verifone_pos.py:105-106 | the fields from the action on read back as the request |
| Verifone.UserRoundTrip | logkitchen/generators/verifone_pos.py:124-125 | the optional "USER: ..." part reads back as the user, or as no user |
| Verifone.HttpRoundTrip | logkitchen/generators/verifone_pos.py:82-87 | the body of every well-formed request reads back as that request |
| Verifone.BareBodyNotHttp | logkitchen/generators/verifone_pos.py:148-151 | a body not starting with W never reads as an HTTP request |
| Verifone.ApiActionsWellFormed | logkitchen/generators/verifone_pos.py:37-41 | every API action is a space-free word not starting with U |
| Verifone.FirstActionsWellFormed | logkitchen/generators/verifone_pos.py:38-39 | the first eight API actions are such words |
| Verifone.LastActionsWellFormed | logkitchen/generators/verifone_pos.py:39-41 | the last seven API actions are such words |
| Verifone.AuthActionsWellFormed | logkitchen/generators/verifone_pos.py:44-46 | every authentication action is such a word |
| Verifone.UsernamesWellFormed | logkitchen/generators/verifone_pos.py:31-34 | no user name has a space |
| Verifone.FailureMessagesNonEmpty | logkitchen/generators/verifone_pos.py:74-80 | every failure reason is non-empty |
| Verifone.PamMessagesStart | logkitchen/generators/verifone_pos.py:137-144 | no PAM/SSH message starts with W |
| Verifone.SshErrorsStart | logkitchen/generators/verifone_pos.py:160-165 | no SSH error starts with W |
| Verifone.RequestOfWellFormed | logkitchen/generators/verifone_pos.py:82-87 | the request printed by each HTTP kind reads back |
| Verifone.RenderReadsBack | logkitchen/generators/verifone_pos.py:82-187 | every line reads back as stamp, store id, address and body; HTTP kinds as their request, the others as their bare message |
| Verifone.UserAuthOutcome | logkitchen/generators/verifone_pos.py:68-87 | a user-auth line reads back with a listed user and auth action, PASSED exactly when the message is empty, and FAILED with one of the five reasons |
| Verifone.HttpLineEnds | logkitchen/generators/verifone_pos.py:86 | every HTTP-request line ends with the literal characters \012 |
| Verifone.RenderStartsWithStamp | logkitchen/generators/verifone_pos.py:83 | every line starts with its timestamp |
| Verifone.LongLinesStayLong | logkitchen/generators/verifone_pos.py:236 | sorting keeps every line at least 23 characters long |
| Verifone.BatchStampsDescending | logkitchen/generators/verifone_pos.py:235-236 | after the reverse sort, the timestamps of later lines never exceed those of earlier ones |
| Verifone.LogWeightsPositive | logkitchen/generators/verifone_pos.py:204 | the weights 40, 20, 25, 8, 2 and 5 have a positive total, so the weighted pick is defined |
| Verifone.StoreIpDraw | logkitchen/generators/verifone_pos.py:21 | three randint draws make a store address 172.[17..25].[1..254].[1..254] |
| Verifone.RoundWithin | logkitchen/generators/verifone_pos.py:217 | rounding timedelta seconds to microseconds keeps integer bounds |
| Verifone.BackdateBounds | logkitchen/generators/verifone_pos.py:217 | (count - i) * uniform(0.5, 5) seconds lies between half a second and five seconds per remaining step |
| Verifone.VerifoneGenerator.constructor | logkitchen/generators/verifone_pos.py:13-53 | the tables are the source's and the 200 store addresses are drawn three draws each, 600 draws in all |
| Verifone.VerifoneGenerator.Stamp | logkitchen/generators/verifone_pos.py:55-57 | every timestamp is 23 characters |
| Verifone.VerifoneGenerator.Store | logkitchen/generators/verifone_pos.py:61-62 | a store id in [100, 799] and one of the drawn store addresses |
| Verifone.VerifoneGenerator.ApiRequestLog | logkitchen/generators/verifone_pos.py:91-109 | an API-request entry with a listed action, register and remote address, shown by the returned line |
| Verifone.VerifoneGenerator.UserAuthLog | logkitchen/generators/verifone_pos.py:59-89 | a user-auth entry: PASSED with no message, or FAILED with one of the five reasons, shown by the returned line |
| Verifone.VerifoneGenerator.ApiRequestWithUserLog | logkitchen/generators/verifone_pos.py:111-128 | an entry with a listed user and an action that is not an authentication action, shown by the returned line |
| Verifone.VerifoneGenerator.PamSshLog | logkitchen/generators/verifone_pos.py:130-153 | a PAM/SSH entry for archiver, one of the six messages dated with the clock's month and day |
| Verifone.VerifoneGenerator.SshErrorLog | logkitchen/generators/verifone_pos.py:155-174 | one of the four SSH errors, shown by the returned line |
| Verifone.VerifoneGenerator.MovementLog | logkitchen/generators/verifone_pos.py:176-187 | a vMovement PASSED request on register 0 from 127.0.0.1, shown by the returned line |
| Verifone.VerifoneGenerator.Dispatch | logkitchen/generators/verifone_pos.py:208 | the builder for the picked type yields an entry of that type |
| Verifone.VerifoneGenerator.PickType | logkitchen/generators/verifone_pos.py:195-206 | the weighted pick over the six builders, using one draw |
| Verifone.VerifoneGenerator.GenerateLog | logkitchen/generators/verifone_pos.py:189-208 | a line made up to an hour before now by one of the six builders |
| Verifone.VerifoneGenerator.CollectedAppend | logkitchen/generators/verifone_pos.py:233 | appending the next line keeps every collected line matched to its draw |
| Verifone.VerifoneGenerator.BatchStep | logkitchen/generators/verifone_pos.py:216-233 | a line backdated by 0.5 to 5 seconds per remaining step, at least 23 characters long |
| Verifone.VerifoneGenerator.GenerateLogs | logkitchen/generators/verifone_pos.py:210-238 | count lines, line k backdated count - k steps; the result is the reverse sort of them: a permutation, non-increasing, with non-increasing timestamps |
| Verifone.VerifoneGenerator.CollectBatch | logkitchen/generators/verifone_pos.py:215-233 | the loop collects count lines, each made for its place in the batch |
| Verifone.VerifoneGenerator.SortBatch | logkitchen/generators/verifone_pos.py:236 | the reverse sort: a non-increasing permutation, unchanged by sorting again |

## Left out

- The Mersenne Twister and CPython's `_randbelow` rejection loop: the random stream is an arbitrary infinite sequence of draws and each primitive uses one draw per value, so only which value a given draw selects is modelled, not the distribution or the exact draws Python consumes.
- Probabilities (70 %, 0.95, the weight tables): the model proves which branch a given draw selects, not how often each branch happens.
- Floating point: `random()`, `uniform` and the weights are exact reals, and `timedelta(seconds=x)` rounds to the nearest microsecond with halves going up, where Python rounds halves to even.
- Faker is a second stream of values: it is trusted to give non-empty names and public addresses outside RFC 1918, which is Faker's documented behaviour and cannot be proved here.
- Base.BaseGenerator.GenerateUsername: only promises a non-empty name, because the four patterns are built from Faker words whose content is not modelled.
- `generate_process_name` and `generate_user_agent` are not called by any generator, so they are not modelled.
- Local time: Python subtracts its timedeltas from naive local datetimes, so the arithmetic is on the wall clock, but the model subtracts on epoch microseconds and formats through the calendar functions. The two differ when the window crosses a daylight-saving change: the printed stamps and auditd's epoch seconds then shift by the change of offset, and a wall-clock time skipped by the spring change has no instant in the model.
- The clock: `datetime.now()` is a parameter in epoch microseconds. `strftime` and the local calendar are functions given to the constructors. The Verifone timestamp is computed digit by digit for years 1000 to 9999 only.
- Verifone.VerifoneGenerator.PamSshLog: the two `datetime.now()` calls inside the PAM/SSH builder read the same instant as the batch, so a batch that crosses midnight is not modelled.
- Verifone tables are held as one `Tables` record. The constructor proves that record equal to the source's lists, which keeps the literal strings out of the proofs of the builders.
- Windows.LogonTypeText: an unknown logon code, where Python raises KeyError, gives the empty string; every builder draws a code from the table, so this case never arises.
- Output: `write_logs`, `print_logs`, `ensure_output_dir` and the `main()` of each generator file are I/O. So are the command line, the terminal interface and the web application.
- `format_log_count` is float formatting only.
- Helpers.OutputFilename: the `%Y%m%d_%H%M%S` stamp from the clock is a parameter.
- Config: YAML loading, `save`, `reload`, `reload_config` and `_get_default_config_path` are file I/O. Their FileNotFoundError and YAML errors are not modelled. The constructor takes the loaded document and the default path as parameters.
- Config.Value covers mappings with string keys, lists, strings, integers, booleans and null; YAML floats, dates and non-string keys are not modelled.
- Config.ConfigManager.Update works on values: sub-mappings that the caller still holds, and that Python would see changed in place through aliasing, are not modelled.
- Text.ParseInt: `int()` is modelled with surrounding ASCII whitespace, a sign and ASCII digits; underscores between digits and non-ASCII digits, which Python also accepts, are not modelled.
- Text.Lower: ASCII case folding only.
- Random.Rng.Sample: only the pool branch of CPython's `sample` is modelled; the set-based branch is used only for large populations, and every call site samples from at most eight entries.
- The syslog facility and severity tables are never read by the generators and are not modelled.
