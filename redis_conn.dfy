/**
  The server's parser for the `SESSION_STORE` connection string, whose
  documented format is `redis://host:port/db`.
 */
module RedisConn {
  import opened Wrappers
  import opened GoText

  /** `ErrRedisConnStr` for a string of the wrong shape; the text Atoi refused otherwise. */
  datatype ConnError = ErrRedisConnStr | NumError(num: string)

  datatype RedisAddr = RedisAddr(host: string, port: int, db: int)

  const Scheme: string := "redis://"

  /**
    parseRedisConnStr: strip one optional `redis://`, split on '/' into
    exactly two pieces and the first piece on ':' into exactly two, then read
    the port and then the database number with Atoi. Host, port and database
    are returned only when every step succeeded.
   */
  function ParseRedisConnStr(connStr: string): (r: Result<RedisAddr, ConnError>)
    ensures var rest := TrimPrefix(connStr, Scheme);
      r == Failure(ErrRedisConnStr) <==>
        Count(rest, '/') != 1 || Count(Split(rest, '/')[0], ':') != 1
    ensures r.Failure? && r.error.NumError? ==> Atoi(r.error.num).None?
    ensures r.Success? ==> ':' !in r.value.host && '/' !in r.value.host
    ensures r.Success? ==>
      exists portText, dbText ::
        && TrimPrefix(connStr, Scheme) == r.value.host + ":" + portText + "/" + dbText
        && Atoi(portText) == Some(r.value.port)
        && Atoi(dbText) == Some(r.value.db)
  {
    var rest := TrimPrefix(connStr, Scheme);
    var parts := Split(rest, '/');
    if |parts| != 2 then Failure(ErrRedisConnStr)
    else
      var hostPort := Split(parts[0], ':');
      if |hostPort| != 2 then Failure(ErrRedisConnStr)
      else
        match Atoi(hostPort[1])
        case None => Failure(NumError(hostPort[1]))
        case Some(port) =>
          match Atoi(parts[1])
          case None => Failure(NumError(parts[1]))
          case Some(db) =>
            JoinSplit(rest, '/');
            JoinSplit(parts[0], ':');
            assert rest == hostPort[0] + ":" + hostPort[1] + "/" + parts[1];
            Success(RedisAddr(hostPort[0], port, db))
  }

  /** How a string of the documented shape splits, whatever its fields hold. */
  lemma SplitShape(host: string, portText: string, dbText: string)
    requires ':' !in host && '/' !in host
    requires ':' !in portText && '/' !in portText && '/' !in dbText
    ensures Split(host + ":" + portText + "/" + dbText, '/') == [host + ":" + portText, dbText]
    ensures Split(host + ":" + portText, ':') == [host, portText]
  {
    var hostPort := host + ":" + portText;
    assert hostPort + "/" + dbText == hostPort + ['/'] + dbText;
    SplitInTwo(hostPort, '/', dbText);
    assert host + ":" + portText == host + [':'] + portText;
    SplitInTwo(host, ':', portText);
  }

  /** Two separator-free pieces joined by the separator split back into exactly those two. */
  lemma SplitInTwo(first: string, sep: char, second: string)
    requires sep !in first && sep !in second
    ensures Split(first + [sep] + second, sep) == [first, second]
  {
    SplitAfterPiece(first, sep, second);
    SplitWithoutSeparator(second, sep);
  }

  /**
    A string of the documented shape always gets past the shape checks: what
    is left is reading the port and then the database number, and a text
    Atoi refuses is reported, the port's first.
   */
  lemma ShapedInput(host: string, portText: string, dbText: string)
    requires ':' !in host && '/' !in host
    requires ':' !in portText && '/' !in portText && '/' !in dbText
    ensures ParseRedisConnStr(Scheme + host + ":" + portText + "/" + dbText) ==
      if Atoi(portText).None? then Failure(NumError(portText))
      else if Atoi(dbText).None? then Failure(NumError(dbText))
      else Success(RedisAddr(host, Atoi(portText).value, Atoi(dbText).value))
  {
    var rest := host + ":" + portText + "/" + dbText;
    assert Scheme + host + ":" + portText + "/" + dbText == Scheme + rest;
    StripScheme(rest);
    SplitShape(host, portText, dbText);
  }

  /**
    Without any '/' after the optional scheme (a string that leaves out the
    database number, say) the parse fails with the shape error.
   */
  lemma NoSlashFails(connStr: string)
    requires '/' !in TrimPrefix(connStr, Scheme)
    ensures ParseRedisConnStr(connStr) == Failure(ErrRedisConnStr)
  {
    CountAbsent(TrimPrefix(connStr, Scheme), '/');
  }

  lemma StripScheme(rest: string)
    ensures TrimPrefix(Scheme + rest, Scheme) == rest
  {
  }

  /** The documented format parses back to exactly the host, port and database written. */
  lemma RoundTrip(host: string, port: int, db: int)
    requires ':' !in host && '/' !in host
    requires MinInt <= port <= MaxInt && MinInt <= db <= MaxInt
    ensures ParseRedisConnStr(Scheme + host + ":" + Itoa(port) + "/" + Itoa(db))
            == Success(RedisAddr(host, port, db))
  {
    ItoaHasNoSeparator(port, ':');
    ItoaHasNoSeparator(port, '/');
    ItoaHasNoSeparator(db, '/');
    AtoiItoa(port);
    AtoiItoa(db);
    ShapedInput(host, Itoa(port), Itoa(db));
  }
}
